/** A method that makes some updates and queues a placeholder between them, as _login does: how its
    client is answered, over every run. */
module Updates {
  import opened Options
  import opened VmLists
  import opened Engine
  import opened EngineRuns
  import opened Chains

  /** The context's unanswered queries. */
  ghost function Pending(w: World, id: Id): set<Qid> {
    set q | q in w.outstanding && w.outstanding[q] == id
  }

  /** The step does not touch the context, unless it is an answer or an event. */
  predicate Untouched(s: Step, id: Id) {
    LeavesAlone(s, id) && (s.Local? ==> s.id != id)
  }

  /** A failed answer to one of the queries. */
  predicate Fails(s: Step, own: set<Qid>) { s.AnswerQuery? && s.qid in own && s.answer.Failed? }

  /** An answer that says that an update affected no row. */
  predicate Misses(s: Step, own: set<Qid>) { s.AnswerQuery? && s.qid in own && s.answer.Rows? && s.answer.affected == 0 }

  /** Nothing but answers and events touches the context. */
  ghost predicate AllUntouched(run: seq<Step>, id: Id) {
    forall i :: 0 <= i < |run| ==> Untouched(run[i], id)
  }

  lemma AllUntouchedTail(run: seq<Step>, id: Id)
    requires AllUntouched(run, id) && run != []
    ensures Untouched(run[0], id) && AllUntouched(run[1..], id)
  {
  }

  ghost predicate FailedIn(run: seq<Step>, own: set<Qid>) {
    exists i :: 0 <= i < |run| && Fails(run[i], own)
  }

  ghost predicate MissedIn(run: seq<Step>, own: set<Qid>) {
    exists i :: 0 <= i < |run| && Misses(run[i], own)
  }

  /** The calls by which the client of a method is answered, or a pre-call let on: the pre-call goes
      on with success only if no row was missing, and is no reply. */
  function Reply(content: Content, failed: bool, missed: bool): seq<Action> {
    var fault := if missed then [Fault(UnknownResource)] else [];
    if failed then [Fault(DbQuery), Resume(false, true)]
    else if content == PreCall then fault + [Resume(!missed, false)]
    else fault + [Resume(true, true)]
  }

  /** The queued events of the context, oldest first. */
  function Mine(queue: seq<(Id, Event)>, id: Id): seq<Event> {
    if queue == [] then [] else MineOf(queue[0], id) + Mine(queue[1..], id)
  }

  function MineOf(x: (Id, Event), id: Id): seq<Event> {
    if x.0 == id then [x.1] else []
  }

  lemma {:induction false} MineMore(queue: seq<(Id, Event)>, more: seq<(Id, Event)>, id: Id)
    ensures Mine(queue + more, id) == Mine(queue, id) + Mine(more, id)
  {
    if queue == [] {
      assert queue + more == more;
    } else {
      hide MineOf;
      var all, x := queue + more, MineOf(queue[0], id);
      assert all[0] == queue[0] && all[1..] == queue[1..] + more;
      MineMore(queue[1..], more, id);
      Regroup(x, Mine(queue[1..], id), Mine(more, id));
      assert Mine(all, id) == x + Mine(all[1..], id);
    }
  }

  lemma MineOne(x: (Id, Event), id: Id)
    ensures Mine([x], id) == if x.0 == id then [x.1] else []
  {
    assert Mine([x][1..], id) == [];
  }

  ghost predicate Live(c: Ctx, log: seq<Action>) {
    && !c.dead && c.log == log && (c.content == Method || c.content == PreCall) && !c.retSet
    && forall i :: 0 <= i < |c.cbs| ==> c.cbs[i] == Placeholder
  }

  function Standing(missed: bool): Error { if missed then UnknownResource else NoError }

  /** Answers are missing, or one has failed and its event is queued; left counts the unanswered
      queries, and mine are the context's queued events. */
  ghost predicate Going(c: Ctx, left: nat, mine: seq<Event>, log: seq<Action>, failed: bool, missed: bool) {
    && Live(c, log) && (forall i :: 0 <= i < |mine| ==> mine[i] == ErrorEvent) && (failed <==> mine != [])
    && if failed then c.error == DbQuery && left <= |c.cbs| else c.error == Standing(missed) && left == |c.cbs| + 1
  }

  /** All answers are in, and the result event is queued. */
  ghost predicate Ripe(c: Ctx, left: nat, mine: seq<Event>, log: seq<Action>, missed: bool) {
    && Live(c, log) && mine == [ResultEvent] && c.cbs == [] && left == 0 && c.error == Standing(missed)
  }

  /** The client has been answered, or the pre-call has been let on. */
  ghost predicate Replied(c: Ctx, left: nat, mine: seq<Event>, log: seq<Action>, failed: bool, missed: bool) {
    && c.cbs == [] && c.log == log + Reply(c.content, failed, missed) && (failed || left == 0)
    && (c.dead <==> failed || c.content != PreCall) && (c.dead || mine == [])
  }

  ghost predicate Stage(c: Ctx, left: nat, mine: seq<Event>, log: seq<Action>, failed: bool, missed: bool) {
    || Going(c, left, mine, log, failed, missed)
    || (!failed && Ripe(c, left, mine, log, missed))
    || Replied(c, left, mine, log, failed, missed)
  }

  /** The context after an answer to an update, when its chain holds placeholders only. */
  function Updated(c: Ctx, ans: Answer): (d: Ctx)
    ensures d.content == c.content
  {
    if ans.Failed? then c.(state := false, error := DbQuery)
    else
      c.(state := false, error := if ans.affected == 0 && c.error == NoError then UnknownResource else c.error,
         cbs := if c.cbs == [] then [] else c.cbs[1..])
  }

  function UpdateEffect(c: Ctx, ans: Answer): Effect {
    if ans.Failed? then Posted(ErrorEvent) else if c.cbs == [] then Posted(ResultEvent) else Popped
  }

  lemma UpdateAnswer(c: Ctx, ans: Answer, env: Env)
    requires forall i :: 0 <= i < |c.cbs| ==> c.cbs[i] == Placeholder
    ensures Dispatch(c, false, Some(ExecHandler), ans, env) == (Updated(c, ans), UpdateEffect(c, ans))
  {
    hide Check, Deliver;
    if ans.Rows? {
      var d := c.(state := false);
      CheckUpdate(d, ans);
      DeliverUpdate(Check(d, ExecHandler, ans));
    }
  }

  lemma CheckUpdate(c: Ctx, ans: Answer)
    requires ans.Rows?
    ensures Check(c, ExecHandler, ans) ==
            c.(error := if ans.affected == 0 && c.error == NoError then UnknownResource else c.error)
  {
  }

  lemma DeliverUpdate(c: Ctx)
    requires forall i :: 0 <= i < |c.cbs| ==> c.cbs[i] == Placeholder
    ensures Deliver(c, true, false) ==
            if c.cbs == [] then (c, Posted(ResultEvent)) else (c.(cbs := c.cbs[1..]), Popped)
  {
  }

  /** An answer to one of the context's updates: the same for the world. */
  lemma OwnAnswer(w: World, s: Step, id: Id)
    requires Enabled(w, s) && s.AnswerQuery? && TablesOk(w) && id in w.ctxs && OnlyExec(w, id)
    requires w.outstanding[s.qid] == id && forall i :: 0 <= i < |w.ctxs[id].cbs| ==> w.ctxs[id].cbs[i] == Placeholder
    ensures var (w1, c) := (Next(w, s), w.ctxs[id]);
            && id in w1.ctxs && w1.ctxs[id] == Updated(c, s.answer) && Pending(w1, id) == Pending(w, id) - {s.qid}
            && w1.queue == w.queue + if UpdateEffect(c, s.answer).Posted? then [(id, UpdateEffect(c, s.answer).event)] else []
  {
    var c := w.ctxs[id];
    UpdateAnswer(c, s.answer, EnvOf(w, s.qid, s.first, s.second));
    assert HandlerOf(w, s.qid) == Some(ExecHandler);
    ExecFollows(w, s.qid, UpdateEffect(c, s.answer), s.first, s.second, id);
    AnswerMoves(w, s.qid, s.answer, s.first, s.second);
    hide Dispatch, Follow, EnvOf, EventCb, Updated, UpdateEffect, TablesOk;
  }

  lemma MineGrows(queue: seq<(Id, Event)>, id: Id, effect: Effect)
    ensures Mine(queue + (if effect.Posted? then [(id, effect.event)] else []), id) == Posting(Mine(queue, id), effect)
  {
    if effect.Posted? {
      MineMore(queue, [(id, effect.event)], id);
      MineOne((id, effect.event), id);
    } else {
      assert queue + [] == queue;
    }
  }

  /** Every other step but an event of the context. */
  lemma OtherSteps(w: World, s: Step, id: Id)
    requires Enabled(w, s) && Untouched(s, id) && TablesOk(w) && id in w.ctxs
    requires s.AnswerQuery? ==> w.outstanding[s.qid] != id
    requires s.HandleEvent? ==> w.queue[0].0 != id
    ensures var w1 := Next(w, s);
            && id in w1.ctxs && w1.ctxs[id] == w.ctxs[id] && Pending(w1, id) == Pending(w, id)
            && Mine(w1.queue, id) == Mine(w.queue, id)
  {
    match s
    case AnswerQuery(qid, ans, first, second) => OthersAnswer(w, s, id);
    case _ =>
  }

  lemma OthersAnswer(w: World, s: Step, id: Id)
    requires Enabled(w, s) && s.AnswerQuery? && TablesOk(w) && id in w.ctxs && w.outstanding[s.qid] != id
    ensures var w1 := Next(w, s);
            && id in w1.ctxs && w1.ctxs[id] == w.ctxs[id] && Pending(w1, id) == Pending(w, id)
            && Mine(w1.queue, id) == Mine(w.queue, id)
  {
    var owner := w.outstanding[s.qid];
    var (c, effect) := React(w, s.qid, s.answer, s.first, s.second);
    var more := Follow(HandlerOf(w, s.qid), effect, s.first, s.second);
    FollowIsNew(w, HandlerOf(w, s.qid), effect, s.first, s.second);
    AnswerMoves(w, s.qid, s.answer, s.first, s.second);
    OthersPending(w.outstanding, s.qid, more, owner, id);
    hide React, Follow, EventCb, TablesOk, Mine;
    if effect.Posted? {
      MineMore(w.queue, [(owner, effect.event)], id);
      MineOne((owner, effect.event), id);
    }
    assert w.queue + [] == w.queue;
  }

  lemma OthersPending(outstanding: map<Qid, Id>, qid: Qid, more: map<Qid, Handler>, owner: Id, id: Id)
    requires owner != id && qid in outstanding && outstanding[qid] == owner
    requires forall q :: q in more ==> q !in outstanding
    ensures var after := outstanding - {qid} + map q | q in more :: owner;
            (set q | q in after && after[q] == id) == set q | q in outstanding && outstanding[q] == id
  {
  }

  /** The context's queued events after its own answer. */
  function Posting(mine: seq<Event>, effect: Effect): seq<Event> {
    mine + if effect.Posted? then [effect.event] else []
  }

  lemma GoingAnswer(c: Ctx, left: nat, mine: seq<Event>, log: seq<Action>, failed: bool, missed: bool, ans: Answer)
    requires Going(c, left, mine, log, failed, missed) && left > 0
    ensures Stage(Updated(c, ans), left - 1, Posting(mine, UpdateEffect(c, ans)), log,
                  failed || ans.Failed?, missed || (ans.Rows? && ans.affected == 0))
  {
    assert Live(Updated(c, ans), log);
    hide Live;
  }

  lemma StageAnswer(c: Ctx, left: nat, mine: seq<Event>, log: seq<Action>, failed: bool, missed: bool, ans: Answer)
    requires Stage(c, left, mine, log, failed, missed) && left > 0
    ensures Stage(Updated(c, ans), left - 1, Posting(mine, UpdateEffect(c, ans)), log,
                  failed || ans.Failed?, missed || (ans.Rows? && ans.affected == 0))
  {
    if Going(c, left, mine, log, failed, missed) {
      GoingAnswer(c, left, mine, log, failed, missed, ans);
    } else {
      assert Replied(c, left, mine, log, failed, missed) && failed;
    }
  }

  lemma StageEvent(c: Ctx, left: nat, mine: seq<Event>, log: seq<Action>, failed: bool, missed: bool)
    requires Stage(c, left, mine, log, failed, missed) && mine != []
    ensures Stage(OnEvent(c, mine[0]), left, mine[1..], log, failed, missed)
  {
    if Going(c, left, mine, log, failed, missed) {
      assert failed && mine[0] == ErrorEvent;
      ErrorReplies(c, log);
      hide OnEvent;
    } else if Ripe(c, left, mine, log, missed) {
      ResultReplies(c, log, missed);
      hide OnEvent;
    }
  }

  lemma ErrorReplies(c: Ctx, log: seq<Action>)
    requires Live(c, log) && c.error == DbQuery
    ensures var d := OnEvent(c, ErrorEvent);
            d.cbs == [] && d.dead && d.content == c.content && d.log == log + [Fault(DbQuery), Resume(false, true)]
  {
  }

  lemma ResultReplies(c: Ctx, log: seq<Action>, missed: bool)
    requires Live(c, log) && c.error == Standing(missed)
    ensures var d := OnEvent(c, ResultEvent);
            && d.cbs == c.cbs && d.content == c.content && (d.dead <==> c.content == Method)
            && d.log == log + Reply(c.content, false, missed)
  {
  }

  /** The context has made its updates, own; failed and missed say how those went that are answered. */
  ghost predicate Updating(w: World, id: Id, own: set<Qid>, log: seq<Action>, failed: bool, missed: bool) {
    && TablesOk(w) && id in w.ctxs && OnlyExec(w, id)
    && own <= w.issued.Keys && (forall q :: q in w.outstanding ==> (w.outstanding[q] == id <==> q in own))
    && Stage(w.ctxs[id], |Pending(w, id)|, Mine(w.queue, id), log, failed, missed)
  }

  lemma StepKeepsOwn(w: World, s: Step, id: Id, own: set<Qid>)
    requires TablesOk(w) && Enabled(w, s) && LeavesAlone(s, id)
    requires own <= w.issued.Keys && forall q :: q in w.outstanding ==> (w.outstanding[q] == id <==> q in own)
    requires OnlyExec(w, id)
    ensures var w1 := Next(w, s);
            own <= w1.issued.Keys && forall q :: q in w1.outstanding ==> (w1.outstanding[q] == id <==> q in own)
  {
    hide ListsOk, OnEvent;
    if s.AnswerQuery? {
      var (c, effect) := React(w, s.qid, s.answer, s.first, s.second);
      FollowIsNew(w, HandlerOf(w, s.qid), effect, s.first, s.second);
      if w.outstanding[s.qid] == id {
        ExecFollows(w, s.qid, effect, s.first, s.second, id);
      }
      hide React, Follow, Fetched;
    }
  }

  lemma OwnEvent(w: World, s: Step, id: Id)
    requires Enabled(w, s) && s.HandleEvent? && w.queue[0].0 == id && id in w.ctxs
    ensures var w1 := Next(w, s);
            && id in w1.ctxs && w1.ctxs[id] == OnEvent(w.ctxs[id], w.queue[0].1) && w1.ctxs[id].content == w.ctxs[id].content
            && Pending(w1, id) == Pending(w, id) && w1.queue == w.queue[1..]
  {
    assert OnEvent(w.ctxs[id], w.queue[0].1).content == w.ctxs[id].content;
    hide OnEvent;
  }

  lemma StepKeepsStage(w: World, s: Step, id: Id, own: set<Qid>, log: seq<Action>, failed: bool, missed: bool)
    requires Updating(w, id, own, log, failed, missed) && Enabled(w, s) && Untouched(s, id)
    ensures var w1 := Next(w, s);
            id in w1.ctxs && Stage(w1.ctxs[id], |Pending(w1, id)|, Mine(w1.queue, id), log,
                                   failed || Fails(s, own), missed || Misses(s, own))
    ensures id in Next(w, s).ctxs && Next(w, s).ctxs[id].content == w.ctxs[id].content
  {
    hide Next, TablesOk, OnlyExec, Updated;
    var c, left := w.ctxs[id], |Pending(w, id)|;
    if s.AnswerQuery? && w.outstanding[s.qid] == id {
      assert s.qid in Pending(w, id) && s.qid in own;
      OwnAnswer(w, s, id);
      MineGrows(w.queue, id, UpdateEffect(c, s.answer));
      StageAnswer(c, left, Mine(w.queue, id), log, failed, missed, s.answer);
    } else if s.HandleEvent? && w.queue[0].0 == id {
      OwnEvent(w, s, id);
      StageEvent(c, left, Mine(w.queue, id), log, failed, missed);
    } else {
      OtherSteps(w, s, id);
    }
  }

  lemma StepKeepsUpdating(w: World, s: Step, id: Id, own: set<Qid>, log: seq<Action>, failed: bool, missed: bool)
    requires Updating(w, id, own, log, failed, missed) && Enabled(w, s) && Untouched(s, id)
    ensures Updating(Next(w, s), id, own, log, failed || Fails(s, own), missed || Misses(s, own))
    ensures id in Next(w, s).ctxs && id in w.ctxs && Next(w, s).ctxs[id].content == w.ctxs[id].content
  {
    hide Next, Stage, ListsOk;
    StepKeepsStage(w, s, id, own, log, failed, missed);
    TablesStep(w, s);
    StepKeepsExec(w, s, id);
    StepKeepsOwn(w, s, id, own);
  }

  lemma TailIn(run: seq<Step>, own: set<Qid>)
    requires run != []
    ensures FailedIn(run, own) <==> Fails(run[0], own) || FailedIn(run[1..], own)
    ensures MissedIn(run, own) <==> Misses(run[0], own) || MissedIn(run[1..], own)
  {
    assert forall i :: 0 < i < |run| ==> run[i] == run[1..][i - 1];
    assert forall i :: 0 <= i < |run[1..]| ==> run[1..][i] == run[i + 1];
  }

  lemma {:induction false} RunKeepsUpdating(
    w: World, run: seq<Step>, w': World, id: Id, own: set<Qid>, log: seq<Action>, failed: bool, missed: bool)
    requires Updating(w, id, own, log, failed, missed) && Reaches(w, run, w')
    requires AllUntouched(run, id)
    ensures Updating(w', id, own, log, failed || FailedIn(run, own), missed || MissedIn(run, own))
    ensures id in w'.ctxs && id in w.ctxs && w'.ctxs[id].content == w.ctxs[id].content
    decreases |run|
  {
    if run != [] {
      AllUntouchedTail(run, id);
      TailIn(run, own);
      StepKeepsUpdating(w, run[0], id, own, log, failed, missed);
      hide Next, Updating, Fails, Misses, FailedIn, MissedIn, Untouched, AllUntouched;
      RunKeepsUpdating(Next(w, run[0]), run[1..], w', id, own, log, failed || Fails(run[0], own), missed || Misses(run[0], own));
    }
  }

  /** Over every run: a context that has queued m placeholders and made m + 1 updates is answered
      exactly once when all of them have been and the events are handled. If one of the answers was
      a failure it is answered with failure. Else a method's client is answered with success, and
      with the fault that a row was missing if an update affected none; and a pre-call is let on
      with success if every update affected a row, and with that fault and failure if one did not. */
  lemma AnsweredOnce(w: World, run: seq<Step>, w': World, id: Id)
    requires TablesOk(w) && id in w.ctxs && OnlyExec(w, id) && Reaches(w, run, w')
    requires Live(w.ctxs[id], w.ctxs[id].log) && w.ctxs[id].error == NoError
    requires |Pending(w, id)| == |w.ctxs[id].cbs| + 1 && Mine(w.queue, id) == []
    requires AllUntouched(run, id)
    requires id in w'.ctxs && Pending(w', id) == {} && Mine(w'.queue, id) == []
    ensures var (own, c, d) := (Pending(w, id), w.ctxs[id], w'.ctxs[id]);
            && d.cbs == [] && (d.dead <==> FailedIn(run, own) || c.content == Method)
            && d.log == c.log + Reply(c.content, FailedIn(run, own), MissedIn(run, own))
  {
    RunKeepsUpdating(w, run, w', id, Pending(w, id), w.ctxs[id].log, false, false);
  }
}
