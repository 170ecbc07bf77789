/** Counting the answers of a context whose chain holds placeholders, over every run: other contexts
    do what they like, and events are handled at any time. */
module Chains {
  import opened Options
  import opened VmLists
  import opened Engine
  import opened EngineRuns
  import opened Replies

  /** The effects of the answers to one context's queries, oldest first. */
  function EffectsOf(history: seq<Reaction>, id: Id): seq<Effect> {
    if history == [] then []
    else
      var rest := EffectsOf(history[..|history| - 1], id);
      var r := history[|history| - 1];
      if r.id == id then rest + [r.effect] else rest
  }

  /** What matters for the chain: a good or a failed answer to the context, or error_handler emptying it. */
  datatype Mark = Good | Failure | Cleared

  function MarkOf(w: World, s: Step, id: Id): Option<Mark> {
    match s
    case AnswerQuery(qid, ans, _, _) =>
      if qid in w.outstanding && w.outstanding[qid] == id then Some(if ans.Failed? then Failure else Good) else None
    case HandleEvent =>
      if w.queue != [] && w.queue[0] == (id, ErrorEvent) && id in w.ctxs && !w.ctxs[id].dead then Some(Cleared) else None
    case _ => None
  }

  ghost function Marks(w: World, run: seq<Step>, id: Id): seq<Mark>
    decreases |run|
  {
    if run == [] || !Enabled(w, run[0]) then []
    else
      var rest := Marks(Next(w, run[0]), run[1..], id);
      if MarkOf(w, run[0], id).Some? then [MarkOf(w, run[0], id).value] + rest else rest
  }

  /** The effect of an answer on a chain of m placeholders: a good one takes one away, and once they
      are used up makes last happen; an emptied chain leaves result events. */
  function EffectOf(m: nat, last: Effect, mark: Mark): seq<Effect> {
    match mark
    case Failure => [Posted(ErrorEvent)]
    case Cleared => []
    case Good => if m > 0 then [Popped] else [last]
  }

  function LeftOf(m: nat, mark: Mark): nat {
    match mark
    case Failure => m
    case Cleared => 0
    case Good => if m > 0 then m - 1 else 0
  }

  function LastOf(last: Effect, mark: Mark): Effect {
    if mark == Cleared then Posted(ResultEvent) else last
  }

  function Expected(m: nat, last: Effect, marks: seq<Mark>): seq<Effect>
    decreases |marks|
  {
    if marks == [] then []
    else EffectOf(m, last, marks[0]) + Expected(LeftOf(m, marks[0]), LastOf(last, marks[0]), marks[1..])
  }

  function Goods(marks: seq<Mark>): (n: nat)
    ensures n <= |marks|
  {
    if marks == [] then 0 else (if marks[0] == Good then 1 else 0) + Goods(marks[1..])
  }

  /** Nothing is issued for the context, nothing is added to its chain, and nothing hands on to it. */
  predicate LeavesAlone(s: Step, id: Id) {
    s.Issue? || s.AddCb? || s.NextCb? ==> s.id != id
  }

  ghost predicate AllLeave(run: seq<Step>, id: Id) {
    forall i :: 0 <= i < |run| ==> LeavesAlone(run[i], id)
  }

  lemma AllLeaveTail(run: seq<Step>, id: Id)
    requires AllLeave(run, id) && run != []
    ensures LeavesAlone(run[0], id) && AllLeave(run[1..], id)
  {
  }

  /** Every outstanding query of the context is an exec query with its handler. */
  ghost predicate OnlyExec(w: World, id: Id) {
    forall qid :: qid in w.outstanding && w.outstanding[qid] == id ==>
      qid !in w.typeCbs && qid in w.dbCbs && w.dbCbs[qid] == ExecHandler
  }

  /** m placeholders, and behind them nothing or one real callback. */
  ghost predicate ChainOf(cbs: seq<Cb>, m: nat, last: Effect) {
    && |cbs| >= m && (forall i :: 0 <= i < m ==> cbs[i] == Placeholder)
    && if last.Called? then |cbs| == m + 1 && cbs[m] == last.cb != Placeholder
       else last == Posted(ResultEvent) && |cbs| == m
  }

  lemma OneAnswer(c: Ctx, ans: Answer, env: Env, m: nat, last: Effect)
    requires ChainOf(c.cbs, m, last)
    ensures var (d, e) := Dispatch(c, false, Some(ExecHandler), ans, env);
            && e == (if ans.Failed? then Posted(ErrorEvent) else if m > 0 then Popped else last)
            && (ans.Failed? ==> ChainOf(d.cbs, m, last))
            && (ans.Rows? && (m > 0 || last.Posted?) ==> ChainOf(d.cbs, if m > 0 then m - 1 else 0, last))
  {
    hide Run, Check;
    if ans.Rows? {
      CheckKeepsChain(c.(state := false), ExecHandler, ans);
    }
  }

  lemma EffectsGrow(history: seq<Reaction>, r: Reaction, id: Id)
    ensures EffectsOf(history + [r], id) == EffectsOf(history, id) + if r.id == id then [r.effect] else []
  {
    assert (history + [r])[..|history|] == history;
  }

  lemma StepHistory(w: World, s: Step, id: Id)
    requires Enabled(w, s)
    ensures var (h, h1) := (EffectsOf(w.history, id), EffectsOf(Next(w, s).history, id));
            if s.AnswerQuery? && w.outstanding[s.qid] == id then h1 == h + [React(w, s.qid, s.answer, s.first, s.second).1]
            else h1 == h
  {
    hide React, Fetched, OnEvent, EffectsOf, Follow;
    if s.AnswerQuery? {
      EffectsGrow(w.history, Reaction(s.qid, w.outstanding[s.qid], React(w, s.qid, s.answer, s.first, s.second).1), id);
    }
  }

  lemma AnswerKeepsExec(w: World, qid: Qid, ans: Answer, first: Option<Qid>, second: Option<Qid>, id: Id)
    requires TablesOk(w) && Enabled(w, AnswerQuery(qid, ans, first, second)) && OnlyExec(w, id)
    ensures OnlyExec(EventCb(w, qid, ans, first, second), id)
  {
    var (c, effect) := React(w, qid, ans, first, second);
    var more := Follow(HandlerOf(w, qid), effect, first, second);
    FollowIsNew(w, HandlerOf(w, qid), effect, first, second);
    hide React, Follow, Fetched, ListsOk;
    if w.outstanding[qid] == id {
      ExecFollows(w, qid, effect, first, second, id);
    }
    var w1 := Close(w, qid, ans, c, effect);
    assert OnlyExec(w1, id) && forall q :: q in more ==> q !in w1.outstanding;
    OpenKeepsExec(w1, w.outstanding[qid], more, qid, id);
  }

  lemma OpenKeepsExec(w: World, owner: Id, more: map<Qid, Handler>, vm: Qid, id: Id)
    requires OnlyExec(w, id) && forall q :: q in more ==> q !in w.outstanding
    requires owner == id ==> more == map[]
    ensures OnlyExec(Open(w, owner, more, vm), id)
  {
  }

  lemma ExecFollows(w: World, qid: Qid, effect: Effect, first: Option<Qid>, second: Option<Qid>, id: Id)
    requires OnlyExec(w, id) && qid in w.outstanding && w.outstanding[qid] == id
    ensures Follow(HandlerOf(w, qid), effect, first, second) == map[]
  {
  }

  lemma StepKeepsExec(w: World, s: Step, id: Id)
    requires TablesOk(w) && Enabled(w, s) && LeavesAlone(s, id) && OnlyExec(w, id)
    ensures OnlyExec(Next(w, s), id)
  {
    hide EventCb, OnEvent, ListsOk;
    match s
    case AnswerQuery(qid, ans, first, second) => AnswerKeepsExec(w, qid, ans, first, second, id);
    case _ =>
  }

  lemma AnswerStep(w: World, s: Step, id: Id, m: nat, last: Effect)
    requires Enabled(w, s) && s.AnswerQuery? && id in w.ctxs && OnlyExec(w, id) && ChainOf(w.ctxs[id].cbs, m, last)
    ensures var (w1, mark) := (Next(w, s), MarkOf(w, s, id));
            && id in w1.ctxs
            && (mark.None? ==> w1.ctxs[id] == w.ctxs[id] && EffectsOf(w1.history, id) == EffectsOf(w.history, id))
            && mark != Some(Cleared)
            && (mark.Some? ==> EffectsOf(w1.history, id) == EffectsOf(w.history, id) + EffectOf(m, last, mark.value))
            && (mark.Some? && !(mark == Some(Good) && m == 0 && last.Called?) ==>
                  ChainOf(w1.ctxs[id].cbs, LeftOf(m, mark.value), last))
  {
    StepHistory(w, s, id);
    if w.outstanding[s.qid] == id {
      OneAnswer(w.ctxs[id], s.answer, EnvOf(w, s.qid, s.first, s.second), m, last);
    }
    AnswerMoves(w, s.qid, s.answer, s.first, s.second);
    hide Dispatch, EnvOf, Follow, EventCb, Fetched, EffectsOf, ChainOf;
  }

  lemma OtherStep(w: World, s: Step, id: Id)
    requires Enabled(w, s) && LeavesAlone(s, id) && !s.AnswerQuery? && id in w.ctxs
    ensures var (w1, mark) := (Next(w, s), MarkOf(w, s, id));
            && id in w1.ctxs && EffectsOf(w1.history, id) == EffectsOf(w.history, id)
            && w1.ctxs[id].cbs == (if mark == Some(Cleared) then [] else w.ctxs[id].cbs)
            && mark != Some(Good) && mark != Some(Failure)
  {
    hide EffectsOf, EventCb, OnEvent;
    match s
    case HandleEvent => EventChain(w.ctxs[w.queue[0].0], w.queue[0].1);
    case _ =>
  }

  lemma EventChain(c: Ctx, e: Event)
    ensures OnEvent(c, e).cbs == if e == ErrorEvent && !c.dead then [] else c.cbs
  {
  }

  /** One step: what it adds to the effects, and what is left of the chain unless its last callback was called. */
  lemma OneStep(w: World, s: Step, id: Id, m: nat, last: Effect)
    requires Enabled(w, s) && LeavesAlone(s, id) && id in w.ctxs && OnlyExec(w, id) && ChainOf(w.ctxs[id].cbs, m, last)
    ensures var (w1, mark) := (Next(w, s), MarkOf(w, s, id));
            && id in w1.ctxs
            && (mark.None? ==> ChainOf(w1.ctxs[id].cbs, m, last) && EffectsOf(w1.history, id) == EffectsOf(w.history, id))
            && (mark.Some? ==> EffectsOf(w1.history, id) == EffectsOf(w.history, id) + EffectOf(m, last, mark.value))
            && (mark.Some? && !(mark == Some(Good) && m == 0 && last.Called?) ==>
                  ChainOf(w1.ctxs[id].cbs, LeftOf(m, mark.value), LastOf(last, mark.value)))
  {
    if s.AnswerQuery? {
      hide Next, ChainOf, EffectsOf, OnlyExec;
      AnswerStep(w, s, id, m, last);
    } else {
      hide Next, EffectsOf, OnlyExec;
      OtherStep(w, s, id);
    }
  }

  lemma FailedAnswer(w: World, s: Step, id: Id)
    requires Enabled(w, s) && id in w.ctxs && MarkOf(w, s, id) != Some(Good)
    ensures var (h, h1, mark) := (EffectsOf(w.history, id), EffectsOf(Next(w, s).history, id), MarkOf(w, s, id));
            id in Next(w, s).ctxs && h1 == if mark.None? then h else h + EffectOf(0, Popped, mark.value)
  {
    StepHistory(w, s, id);
    hide EffectsOf, EnvOf, Fetched, Follow, Settle;
  }

  /** Answers that all fail are error events, whatever the chain is. */
  lemma {:induction false} NoGoods(w: World, run: seq<Step>, w': World, id: Id, m: nat, last: Effect)
    requires Reaches(w, run, w') && id in w.ctxs && Goods(Marks(w, run, id)) == 0
    ensures EffectsOf(w'.history, id) == EffectsOf(w.history, id) + Expected(m, last, Marks(w, run, id))
    decreases |run|
  {
    if run != [] {
      hide Next, EffectsOf, MarkOf;
      var w1, mark := Next(w, run[0]), MarkOf(w, run[0], id);
      FailedAnswer(w, run[0], id);
      if mark.Some? {
        NoGoods(w1, run[1..], w', id, LeftOf(m, mark.value), LastOf(last, mark.value));
      } else {
        NoGoods(w1, run[1..], w', id, m, last);
      }
    }
  }

  lemma MarksUnrolled(w: World, run: seq<Step>, id: Id, m: nat, last: Effect)
    requires run != [] && Enabled(w, run[0])
    ensures var (mark, all, rest) := (MarkOf(w, run[0], id), Marks(w, run, id), Marks(Next(w, run[0]), run[1..], id));
            if mark.None? then all == rest
            else
              && (Goods(all) <= m + 1 && (mark.value != Good || m > 0) ==> LastOf(last, mark.value).Called? ==> Goods(rest) <= LeftOf(m, mark.value) + 1)
              && (Goods(all) <= m + 1 && mark == Some(Good) && m == 0 ==> Goods(rest) == 0)
              && Expected(m, last, all) == EffectOf(m, last, mark.value)
                                           + Expected(LeftOf(m, mark.value), LastOf(last, mark.value), rest)
  {
    hide Next, MarkOf;
    var mark, rest := MarkOf(w, run[0], id), Marks(Next(w, run[0]), run[1..], id);
    if mark.Some? {
      assert ([mark.value] + rest)[1..] == rest;
    }
  }

  lemma Regroup<T>(a: seq<T>, b: seq<T>, c: seq<T>)
    ensures a + b + c == a + (b + c)
  {
  }

  /** A context with exec queries and a chain of m placeholders. */
  ghost predicate Chained(w: World, id: Id, m: nat, last: Effect) {
    TablesOk(w) && id in w.ctxs && OnlyExec(w, id) && ChainOf(w.ctxs[id].cbs, m, last)
  }

  lemma StepKeepsChained(w: World, s: Step, id: Id, m: nat, last: Effect)
    requires Chained(w, id, m, last) && Enabled(w, s) && LeavesAlone(s, id)
    ensures var (w1, mark) := (Next(w, s), MarkOf(w, s, id));
            && TablesOk(w1) && id in w1.ctxs
            && (mark.None? ==> Chained(w1, id, m, last) && EffectsOf(w1.history, id) == EffectsOf(w.history, id))
            && (mark.Some? ==> EffectsOf(w1.history, id) == EffectsOf(w.history, id) + EffectOf(m, last, mark.value))
            && (mark.Some? && !(mark == Some(Good) && m == 0 && last.Called?) ==>
                  Chained(w1, id, LeftOf(m, mark.value), LastOf(last, mark.value)))
  {
    hide Next, EffectsOf, TablesOk, OnlyExec, ChainOf, LeavesAlone;
    TablesStep(w, s);
    StepKeepsExec(w, s, id);
    OneStep(w, s, id, m, last);
  }

  /** Chain counting: over every run in which nothing is issued for the context and nothing added to
      its chain, the answers to its queries have exactly the expected effects. */
  lemma {:induction false} ChainCounting(w: World, run: seq<Step>, w': World, id: Id, m: nat, last: Effect)
    requires Chained(w, id, m, last) && Reaches(w, run, w')
    requires AllLeave(run, id)
    requires last.Called? ==> Goods(Marks(w, run, id)) <= m + 1
    ensures EffectsOf(w'.history, id) == EffectsOf(w.history, id) + Expected(m, last, Marks(w, run, id))
    decreases |run|
  {
    if run != [] {
      AllLeaveTail(run, id);
      hide Next, EffectsOf, Chained, TablesOk, MarkOf, LeavesAlone, AllLeave, Goods, Marks, Expected, EffectOf, LeftOf, LastOf;
      MarksUnrolled(w, run, id, m, last);
      StepKeepsChained(w, run[0], id, m, last);
      var w1, mark := Next(w, run[0]), MarkOf(w, run[0], id);
      if mark.None? {
        ChainCounting(w1, run[1..], w', id, m, last);
      } else {
        var n, other := LeftOf(m, mark.value), LastOf(last, mark.value);
        if mark == Some(Good) && m == 0 && last.Called? {
          NoGoods(w1, run[1..], w', id, n, other);
        } else {
          ChainCounting(w1, run[1..], w', id, n, other);
        }
        Regroup(EffectsOf(w.history, id), EffectOf(m, last, mark.value), Expected(n, other, Marks(w1, run[1..], id)));
      }
    }
  }

  /** m + 1 answers without a failure: m placeholders, then what is behind them, once and last. */
  lemma {:induction false} ExpectedAllGood(m: nat, last: Effect, marks: seq<Mark>)
    requires |marks| == m + 1 && forall i :: 0 <= i <= m ==> marks[i] == Good
    ensures Expected(m, last, marks) == seq(m, _ => Popped) + [last]
  {
    if m == 0 {
      assert marks[1..] == [];
    } else {
      ExpectedAllGood(m - 1, last, marks[1..]);
      assert [Popped] + (seq(m - 1, _ => Popped) + [last]) == seq(m, _ => Popped) + [last];
    }
  }

  /** m + 1 good answers arrive before error_handler empties the chain. */
  ghost predicate Completes(m: nat, marks: seq<Mark>) {
    exists k :: 0 <= k <= |marks| && Goods(marks[..k]) == m + 1 && Cleared !in marks[..k]
  }

  lemma CompletesUnrolled(m: nat, marks: seq<Mark>)
    requires marks != []
    ensures Completes(m, marks) <==>
              marks[0] != Cleared && if marks[0] == Good then m == 0 || Completes(m - 1, marks[1..]) else Completes(m, marks[1..])
  {
    var tail := marks[1..];
    forall k | 0 < k <= |marks|
      ensures marks[..k] == [marks[0]] + tail[..k - 1]
      ensures Goods(marks[..k]) == (if marks[0] == Good then 1 else 0) + Goods(tail[..k - 1])
    {
      assert marks[..k][1..] == tail[..k - 1];
    }
    if k :| 0 <= k <= |marks| && Goods(marks[..k]) == m + 1 && Cleared !in marks[..k] {
      assert Goods(tail[..k - 1]) == if marks[0] == Good then m else m + 1;
      assert Cleared !in tail[..k - 1];
    }
    if marks[0] == Good && m == 0 {
      assert Goods(marks[..1]) == 1;
    } else if marks[0] != Cleared {
      var n := if marks[0] == Good then m - 1 else m;
      if k :| 0 <= k <= |tail| && Goods(tail[..k]) == n + 1 && Cleared !in tail[..k] {
        assert Goods(marks[..k + 1]) == m + 1 && Cleared !in marks[..k + 1];
      }
    }
  }

  lemma {:induction false} OnlyEvents(m: nat, marks: seq<Mark>)
    ensures forall e :: e in Expected(m, Posted(ResultEvent), marks) ==> !e.Called?
    decreases |marks|
  {
    if marks != [] {
      OnlyEvents(LeftOf(m, marks[0]), marks[1..]);
    }
  }

  /** A callback behind m placeholders is called if and only if m + 1 good answers arrive before
      error_handler has emptied the chain. */
  lemma {:induction false} LastHappens(m: nat, last: Effect, marks: seq<Mark>)
    requires last.Called?
    ensures last in Expected(m, last, marks) <==> Completes(m, marks)
    decreases |marks|
  {
    if marks != [] {
      hide Completes;
      CompletesUnrolled(m, marks);
      OnlyEvents(LeftOf(m, marks[0]), marks[1..]);
      LastHappens(LeftOf(m, marks[0]), last, marks[1..]);
    }
  }

  /** A good answer meets an empty chain: the placeholders are used up, or error_handler emptied it. */
  ghost predicate MeetsEmpty(m: nat, marks: seq<Mark>) {
    exists k :: 0 <= k < |marks| && marks[k] == Good && (Cleared in marks[..k] || Goods(marks[..k]) >= m)
  }

  lemma MeetsEmptyUnrolled(m: nat, marks: seq<Mark>)
    requires marks != []
    ensures MeetsEmpty(m, marks) <==>
              (marks[0] == Good && m == 0) || MeetsEmpty(LeftOf(m, marks[0]), marks[1..])
  {
    var tail := marks[1..];
    forall k | 0 < k <= |marks|
      ensures marks[..k] == [marks[0]] + tail[..k - 1]
      ensures Goods(marks[..k]) == (if marks[0] == Good then 1 else 0) + Goods(tail[..k - 1])
    {
      assert marks[..k][1..] == tail[..k - 1];
    }
    assert Goods(marks[..0]) == 0;
    if k :| 0 <= k < |marks| && marks[k] == Good && (Cleared in marks[..k] || Goods(marks[..k]) >= m) {
      if k > 0 {
        assert tail[k - 1] == Good;
        assert marks[0] == Cleared || Cleared in tail[..k - 1] || Goods(tail[..k - 1]) >= LeftOf(m, marks[0]);
      }
    }
    if k :| 0 <= k < |tail| && tail[k] == Good && (Cleared in tail[..k] || Goods(tail[..k]) >= LeftOf(m, marks[0])) {
      assert marks[k + 1] == Good && (Cleared in marks[..k + 1] || Goods(marks[..k + 1]) >= m);
    }
  }

  /** A result event is posted if and only if a good answer meets an empty chain. After a failure
      that can be sooner than the placeholders would allow. */
  lemma {:induction false} ResultHappens(m: nat, marks: seq<Mark>)
    ensures Posted(ResultEvent) in Expected(m, Posted(ResultEvent), marks) <==> MeetsEmpty(m, marks)
    decreases |marks|
  {
    if marks != [] {
      hide MeetsEmpty;
      MeetsEmptyUnrolled(m, marks);
      ResultHappens(LeftOf(m, marks[0]), marks[1..]);
    }
  }

  ghost predicate NoErrorQueued(w: World, id: Id) {
    forall i :: 0 <= i < |w.queue| ==> w.queue[i] != (id, ErrorEvent)
  }

  lemma StepQueuesNoError(w: World, s: Step, id: Id)
    requires Enabled(w, s) && id in w.ctxs && OnlyExec(w, id) && NoErrorQueued(w, id) && MarkOf(w, s, id) != Some(Failure)
    ensures NoErrorQueued(Next(w, s), id) && MarkOf(w, s, id) != Some(Cleared)
  {
    hide OnEvent, Fetched, Follow, EnvOf, Run;
  }

  /** Without a failed answer error_handler has nothing to empty the chain for. */
  lemma {:induction false} NeverCleared(w: World, run: seq<Step>, w': World, id: Id)
    requires TablesOk(w) && id in w.ctxs && OnlyExec(w, id) && Reaches(w, run, w') && NoErrorQueued(w, id)
    requires AllLeave(run, id)
    requires Failure !in Marks(w, run, id)
    ensures Cleared !in Marks(w, run, id)
    decreases |run|
  {
    if run != [] {
      AllLeaveTail(run, id);
      hide Next, TablesOk, OnlyExec, MarkOf, LeavesAlone, AllLeave, NoErrorQueued;
      TablesStep(w, run[0]);
      StepKeepsExec(w, run[0], id);
      StepQueuesNoError(w, run[0], id);
      NeverCleared(Next(w, run[0]), run[1..], w', id);
    }
  }

  /** m + 1 answers and no failure: m placeholders are popped, and then what is behind them happens,
      once and last, whatever happened in between. */
  lemma AllGood(w: World, run: seq<Step>, w': World, id: Id, m: nat, last: Effect)
    requires Chained(w, id, m, last) && Reaches(w, run, w') && NoErrorQueued(w, id)
    requires AllLeave(run, id)
    requires Failure !in Marks(w, run, id) && |Marks(w, run, id)| == m + 1
    ensures EffectsOf(w'.history, id) == EffectsOf(w.history, id) + seq(m, _ => Popped) + [last]
  {
    var marks := Marks(w, run, id);
    NeverCleared(w, run, w', id);
    forall i | 0 <= i <= m ensures marks[i] == Good {
      assert marks[i] in marks;
    }
    hide Marks, OnlyExec, TablesOk, Reaches, EffectsOf;
    ExpectedAllGood(m, last, marks);
    ChainCounting(w, run, w', id, m, last);
    Regroup(EffectsOf(w.history, id), seq(m, _ => Popped), [last]);
  }

  /** _login's two updates, with a placeholder queued between them: the result event comes with the
      second answer, whichever that is. After _handleVmStateChange's two, the job callback behind the
      placeholder is called with the second. */
  lemma TwoUpdates(w: World, run: seq<Step>, w': World, id: Id)
    requires TablesOk(w) && id in w.ctxs && OnlyExec(w, id) && Reaches(w, run, w') && NoErrorQueued(w, id)
    requires AllLeave(run, id)
    requires Marks(w, run, id) == [Good, Good]
    ensures w.ctxs[id].cbs == [Placeholder] ==>
              EffectsOf(w'.history, id) == EffectsOf(w.history, id) + [Popped] + [Posted(ResultEvent)]
    ensures w.ctxs[id].cbs == [Placeholder, BoolJob] ==>
              EffectsOf(w'.history, id) == EffectsOf(w.history, id) + [Popped] + [Called(BoolJob)]
  {
    hide Marks, OnlyExec, TablesOk, Reaches, EffectsOf;
    assert seq(1, _ => Popped) == [Popped];
    if w.ctxs[id].cbs == [Placeholder] {
      AllGood(w, run, w', id, 1, Posted(ResultEvent));
    } else if w.ctxs[id].cbs == [Placeholder, BoolJob] {
      AllGood(w, run, w', id, 1, Called(BoolJob));
    }
  }

  /** A context whose chain error_handler has emptied is dead from then on, and no event changes it. */
  lemma {:induction false} ClearedIsDead(w: World, run: seq<Step>, w': World, id: Id)
    requires Reaches(w, run, w') && id in w.ctxs && Cleared in Marks(w, run, id)
    ensures id in w'.ctxs && w'.ctxs[id].dead && w'.ctxs[id].cbs == []
    ensures forall e :: OnEvent(w'.ctxs[id], e) == w'.ctxs[id]
    decreases |run|
  {
    hide Next;
    var w1, mark := Next(w, run[0]), MarkOf(w, run[0], id);
    if mark == Some(Cleared) {
      ClearedNow(w, run[0], id);
      DeadStaysDead(w1, run[1..], w', id);
    } else {
      StepOnContext(w, run[0], id);
      ClearedIsDead(w1, run[1..], w', id);
    }
  }

  lemma ClearedNow(w: World, s: Step, id: Id)
    requires Enabled(w, s) && MarkOf(w, s, id) == Some(Cleared)
    ensures id in Next(w, s).ctxs && Next(w, s).ctxs[id].dead && Next(w, s).ctxs[id].cbs == []
  {
  }
}
