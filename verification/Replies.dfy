/** At most one reply to each client, over every run of the call engine. */
module Replies {
  import opened Options
  import opened Engine
  import opened EngineRuns

  /** The latch is set exactly when a reply was sent, and nothing resumes the client after a reply. */
  ghost predicate RepliedOnce(c: Ctx) {
    && (c.dead <==> exists i :: 0 <= i < |c.log| && IsReply(c.log[i]))
    && forall i, j :: 0 <= i < j < |c.log| && IsReply(c.log[i]) ==> !c.log[j].Resume?
  }

  predicate NoReply(log: seq<Action>) { forall i :: 0 <= i < |log| ==> !IsReply(log[i]) }

  predicate NoResume(log: seq<Action>) { forall i :: 0 <= i < |log| ==> !log[i].Resume? }

  /** d follows c: the log grew by calls that are no replies, and by no resume at all once c is dead. */
  ghost predicate Quiet(c: Ctx, d: Ctx) {
    && c.dead == d.dead && c.log <= d.log
    && NoReply(d.log[|c.log|..])
    && (c.dead ==> NoResume(d.log[|c.log|..]))
    && (c.dead && c.cbs == [] ==> d.cbs == [])
  }

  lemma QuietBy(c: Ctx, d: Ctx, more: seq<Action>)
    requires c.dead == d.dead && d.log == c.log + more && NoReply(more)
    requires c.dead ==> NoResume(more)
    requires c.dead && c.cbs == [] ==> d.cbs == []
    ensures Quiet(c, d)
  {
    assert d.log[|c.log|..] == more;
  }

  /** What one callback adds to the log. */
  function LogOf(c: Ctx, cb: Cb): (more: seq<Action>)
    ensures NoReply(more) && (c.dead ==> NoResume(more))
  {
    match cb
    case IntRewind => [Rewind] + c.ResumeLog()
    case BoolRewind => if c.dead then [] else [Rewind, Resume(true, false)]
    case AuthRewind => if c.dead then [] else [Rewind, Resume(true, false)]
    case PointerReturn => if c.dead then [] else [Rewind, Resume(true, false)]
    case IntReturn => if c.dead then [] else [Rewind, Resume(true, false)]
    case _ => []
  }

  lemma RunLog(c: Ctx, cb: Cb, ret: bool)
    requires c.cbs != []
    ensures Run(c, cb, ret).log == c.log + LogOf(c, cb) && Run(c, cb, ret).dead == c.dead
  {
    match cb
    case Placeholder =>
    case BoolJob =>
    case IntJob =>
    case PointerJob =>
    case IntRewind => assert c.log + [Rewind] + c.ResumeLog() == c.log + ([Rewind] + c.ResumeLog());
    case BoolRewind =>
    case AuthRewind =>
    case PointerReturn =>
    case IntReturn =>
    case Custom(_) =>
  }

  lemma RunIsQuiet(c: Ctx, d: Ctx, cb: Cb, ret: bool)
    requires d.cbs != [] && d.cbs == c.cbs && d.dead == c.dead && d.log == c.log
    ensures Quiet(c, Run(d, cb, ret))
  {
    RunLog(d, cb, ret);
    hide Run, LogOf, Quiet;
    QuietBy(c, Run(d, cb, ret), LogOf(d, cb));
  }

  lemma DeliverIsQuiet(c: Ctx, d: Ctx, ok: bool, err: bool)
    requires d.cbs == c.cbs && d.dead == c.dead && d.log == c.log
    ensures Quiet(c, Deliver(d, ok, err).0)
  {
    hide Run, Quiet;
    if d.cbs == [] || d.cbs[0] == Placeholder {
      QuietBy(c, Deliver(d, ok, err).0, []);
    } else {
      RunIsQuiet(c, d, d.cbs[0], if d.error == NoError then ok else err);
    }
  }

  lemma HandleIsQuiet(c: Ctx, d: Ctx, h: Handler, ans: Answer, env: Env)
    requires ans.Rows? && d.cbs == c.cbs && d.dead == c.dead && d.log == c.log
    ensures Quiet(c, Handle(d, h, ans, env).0)
  {
    hide Deliver, Check, Quiet, Run;
    CheckKeepsChain(d, h, ans);
    match h
    case VmHandler => VmIsQuiet(c, d, ans, env);
    case ListHandler(_) => ListIsQuiet(c, d, env);
    case NodeEnabledHandler => EnabledIsQuiet(c, d, ans, env);
    case NodeConfiguredHandler => ConfiguredIsQuiet(c, d, ans);
    case IntHandler => DeliverIsQuiet(c, Check(d, h, ans), ans.value, true);
    case PtrHandler => DeliverIsQuiet(c, Check(d, h, ans), ans.value, false);
    case BoolHandler => DeliverIsQuiet(c, Check(d, h, ans), true, false);
    case ExecHandler => DeliverIsQuiet(c, Check(d, h, ans), true, false);
    case ExecExistsHandler => DeliverIsQuiet(c, Check(d, h, ans), true, false);
  }

  lemma VmIsQuiet(c: Ctx, d: Ctx, ans: Answer, env: Env)
    requires ans.Rows? && d.cbs == c.cbs && d.dead == c.dead && d.log == c.log
    ensures Quiet(c, HandleVm(d, ans, env).0)
  {
    hide Deliver, Quiet;
    var e := if ans.rows == 0 then d.(error := UnknownResource) else d;
    if e.error != NoError {
      DeliverIsQuiet(c, e, false, false);
    } else {
      QuietBy(c, HandleVm(d, ans, env).0, []);
    }
  }

  lemma ListIsQuiet(c: Ctx, d: Ctx, env: Env)
    requires d.cbs == c.cbs && d.dead == c.dead && d.log == c.log
    ensures Quiet(c, HandleList(d, env).0)
  {
    hide Deliver, Quiet;
    DeliverIsQuiet(c, d, true, true);
    QuietBy(c, d, []);
  }

  lemma EnabledIsQuiet(c: Ctx, d: Ctx, ans: Answer, env: Env)
    requires ans.Rows? && d.cbs == c.cbs && d.dead == c.dead && d.log == c.log
    ensures Quiet(c, HandleNodeEnabled(d, ans, env).0)
  {
    hide Quiet;
    if ans.rows == 0 {
      QuietBy(c, d.(error := UnknownResource), []);
    } else if !ans.value {
      QuietBy(c, d.(error := NodeDisabled), []);
    } else if !env.first {
      QuietBy(c, d.(state := true, error := DbFail), []);
    } else {
      QuietBy(c, d.(state := true), []);
    }
  }

  lemma ConfiguredIsQuiet(c: Ctx, d: Ctx, ans: Answer)
    requires ans.Rows? && d.cbs == c.cbs && d.dead == c.dead && d.log == c.log
    ensures Quiet(c, HandleNodeConfigured(d, ans).0)
  {
    hide Run, Quiet;
    if ans.rows > 0 && d.cbs != [] {
      RunIsQuiet(c, d.(state := true), d.cbs[0], true);
    } else {
      QuietBy(c, HandleNodeConfigured(d, ans).0, []);
    }
  }

  /** No answer replies by itself, and none resumes a context that has replied. */
  lemma DispatchIsQuiet(c: Ctx, typed: bool, h: Option<Handler>, ans: Answer, env: Env)
    ensures Quiet(c, Dispatch(c, typed, h, ans, env).0)
  {
    hide Run, Quiet, Handle;
    var d := c.(state := false);
    if Bad(c, typed, ans) || (h.None? && c.cbs == []) {
      QuietBy(c, Dispatch(c, typed, h, ans, env).0, []);
    } else if h.Some? {
      HandleIsQuiet(c, d, h.value, ans, env);
    } else {
      RunIsQuiet(c, d, c.cbs[0], ans.value);
    }
  }

  lemma QuietKeepsRepliedOnce(c: Ctx, d: Ctx)
    requires RepliedOnce(c) && Quiet(c, d)
    ensures RepliedOnce(d)
  {
    assert forall i :: |c.log| <= i < |d.log| ==> d.log[i] == d.log[|c.log|..][i - |c.log|];
    assert forall i :: 0 <= i < |c.log| ==> d.log[i] == c.log[i];
  }

  /** The one reply is the last call so far. */
  lemma ReplyAppended(c: Ctx, d: Ctx, more: seq<Action>, ok: bool)
    requires RepliedOnce(c) && !c.dead && d.dead
    requires NoReply(more) && d.log == c.log + more + [Resume(ok, true)]
    ensures RepliedOnce(d)
  {
    var last := |d.log| - 1;
    assert IsReply(d.log[last]);
    forall i | 0 <= i < last ensures !IsReply(d.log[i]) {
      assert i < |c.log| ==> d.log[i] == c.log[i];
      assert i >= |c.log| ==> d.log[i] == more[i - |c.log|];
    }
  }

  lemma ErrorKeepsRepliedOnce(c: Ctx)
    requires RepliedOnce(c) && !c.dead
    ensures RepliedOnce(OnError(c))
  {
    hide RepliedOnce;
    assert c.log + [Fault(c.error), Resume(false, true)] == c.log + [Fault(c.error)] + [Resume(false, true)];
    ReplyAppended(c, OnError(c), [Fault(c.error)], false);
  }

  lemma ResultKeepsRepliedOnce(c: Ctx)
    requires RepliedOnce(c) && !c.dead
    ensures RepliedOnce(OnResult(c))
  {
    hide RepliedOnce, Quiet;
    assert NoReply(Faults(c));
    hide Faults;
    var d := OnResult(c);
    if d.dead {
      ReplyAppended(c, d, Faults(c), true);
    } else {
      var more := Faults(c) + [Resume(c.error == NoError, false)];
      assert d.log == c.log + more;
      QuietBy(c, d, more);
      QuietKeepsRepliedOnce(c, d);
    }
  }

  lemma EventKeepsRepliedOnce(c: Ctx, e: Event)
    requires RepliedOnce(c)
    ensures RepliedOnce(OnEvent(c, e))
    ensures c.dead ==> OnEvent(c, e) == c
    ensures !c.dead && e == ErrorEvent ==> OnEvent(c, e).dead && OnEvent(c, e).cbs == [] && !OnEvent(c, e).param
  {
    hide RepliedOnce;
    if !c.dead {
      ErrorKeepsRepliedOnce(c);
      ResultKeepsRepliedOnce(c);
    }
  }

  /** A step leaves each context alone, lets it follow quietly, or handles one of its events. */
  lemma StepOnContext(w: World, s: Step, id: Id)
    requires Enabled(w, s) && id in w.ctxs
    ensures id in Next(w, s).ctxs
    ensures var (c, d) := (w.ctxs[id], Next(w, s).ctxs[id]);
            Quiet(c, d) || (s.HandleEvent? && w.queue[0].0 == id && d == OnEvent(c, w.queue[0].1))
  {
    hide Dispatch, OnEvent, Quiet;
    var c := w.ctxs[id];
    match s
    case AnswerQuery(qid, ans, first, second) =>
      hide Fetched, Follow, EnvOf;
      DispatchIsQuiet(w.ctxs[w.outstanding[qid]], qid in w.typeCbs, HandlerOf(w, qid), ans, EnvOf(w, qid, first, second));
      QuietBy(c, c, []);
    case Local(i, d) =>
      QuietBy(c, c, []);
      if i == id {
        QuietBy(c, d, d.log[|c.log|..]);
      }
    case AddCb(i, cb) => QuietBy(c, Next(w, s).ctxs[id], []);
    case NextCb(i, ret) =>
      QuietBy(c, c, []);
      RunIsQuiet(w.ctxs[i], w.ctxs[i], w.ctxs[i].cbs[0], ret);
    case _ => QuietBy(c, c, []);
  }

  ghost predicate AllRepliedOnce(w: World) {
    forall id :: id in w.ctxs ==> RepliedOnce(w.ctxs[id])
  }

  lemma ReplyStep(w: World, s: Step)
    requires AllRepliedOnce(w) && Enabled(w, s)
    ensures AllRepliedOnce(Next(w, s)) && Next(w, s).ctxs.Keys == w.ctxs.Keys
  {
    hide Dispatch, OnEvent, Quiet, RepliedOnce;
    forall id | id in w.ctxs ensures RepliedOnce(Next(w, s).ctxs[id]) {
      StepOnContext(w, s, id);
      if s.HandleEvent? {
        EventKeepsRepliedOnce(w.ctxs[id], w.queue[0].1);
      }
      if Quiet(w.ctxs[id], Next(w, s).ctxs[id]) {
        QuietKeepsRepliedOnce(w.ctxs[id], Next(w, s).ctxs[id]);
      }
    }
  }

  /** Over every run: each context is answered at most once, its latch says whether it was, and
      after the answer nothing resumes it. */
  lemma {:induction false} AtMostOneReply(w: World, run: seq<Step>, w': World)
    requires AllRepliedOnce(w) && Reaches(w, run, w')
    ensures AllRepliedOnce(w')
    decreases |run|
  {
    if run != [] {
      ReplyStep(w, run[0]);
      AtMostOneReply(Next(w, run[0]), run[1..], w');
    }
  }

  lemma InitialReplies(w: World)
    requires Initial(w)
    ensures AllRepliedOnce(w)
  {
  }

  lemma {:induction false} QuietTrans(c: Ctx, d: Ctx, e: Ctx)
    requires Quiet(c, d) && Quiet(d, e)
    ensures Quiet(c, e)
  {
    var more, last := d.log[|c.log|..], e.log[|d.log|..];
    assert d.log == c.log + more && e.log == d.log + last;
    assert e.log == c.log + (more + last);
    QuietBy(c, e, more + last);
  }

  /** From the reply on: the latch stays set, the client is not resumed again, and a chain that
      error_handler emptied stays empty. */
  lemma {:induction false} DeadStaysDead(w: World, run: seq<Step>, w': World, id: Id)
    requires Reaches(w, run, w') && id in w.ctxs && w.ctxs[id].dead
    ensures id in w'.ctxs && Quiet(w.ctxs[id], w'.ctxs[id])
    decreases |run|
  {
    hide Next, OnEvent, Quiet;
    if run == [] {
      QuietBy(w.ctxs[id], w.ctxs[id], []);
    } else {
      var w1 := Next(w, run[0]);
      StepOnDead(w, run[0], id);
      DeadStaysDead(w1, run[1..], w', id);
      QuietTrans(w.ctxs[id], w1.ctxs[id], w'.ctxs[id]);
    }
  }

  lemma StepOnDead(w: World, s: Step, id: Id)
    requires Enabled(w, s) && id in w.ctxs && w.ctxs[id].dead
    ensures id in Next(w, s).ctxs && Quiet(w.ctxs[id], Next(w, s).ctxs[id]) && Next(w, s).ctxs[id].dead
  {
    hide Next;
    StepOnContext(w, s, id);
    QuietBy(w.ctxs[id], w.ctxs[id], []);
  }

  /** A result event of a method's live context is its reply. */
  lemma ResultReplies(c: Ctx)
    requires !c.dead && (c.content == Method || c.content == Gone)
    ensures OnResult(c).dead && OnResult(c).log[|OnResult(c).log| - 1] == Resume(true, true)
  {
  }
}
