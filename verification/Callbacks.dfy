/** What the callbacks of functions_cb.c and the handlers before them are for: to go on with the
    context's work exactly once, with the value that the answer brought. */
module Callbacks {
  import opened Options
  import opened Join
  import opened Engine
  import opened EngineRuns
  import opened Replies

  predicate IsRewind(a: Action) { a.Rewind? }

  predicate IsResume(a: Action) { a.Resume? }

  /** The callbacks that go on by a job, and those that go on by running the method again. */
  predicate ByJob(cb: Cb) { cb.BoolJob? || cb.IntJob? || cb.PointerJob? }

  predicate ByRewind(cb: Cb) {
    cb.IntRewind? || cb.BoolRewind? || cb.AuthRewind? || cb.PointerReturn? || cb.IntReturn?
  }

  /** The callbacks that pass the answer's value on. */
  predicate Passes(cb: Cb) { cb.IntJob? || cb.PointerJob? || cb.PointerReturn? || cb.IntReturn? }

  lemma {:induction false} CountMore<T>(s: seq<T>, more: seq<T>, p: T -> bool)
    ensures Count(s + more, p) == Count(s, p) + Count(more, p)
  {
    if more == [] {
      assert s + more == s;
    } else {
      var last := |more| - 1;
      CountMore(s, more[..last], p);
      assert (s + more)[..|s + more| - 1] == s + more[..last];
    }
  }

  lemma CountOne<T>(x: T, p: T -> bool)
    ensures Count([x], p) == if p(x) then 1 else 0
  {
    assert [x][..0] == [];
  }

  lemma CountTwo<T>(x: T, y: T, p: T -> bool)
    ensures Count([x, y], p) == (if p(x) then 1 else 0) + if p(y) then 1 else 0
  {
    CountOne(x, p);
    assert [x, y][..1] == [x];
  }

  lemma ResumeCounts(c: Ctx)
    ensures Count(c.ResumeLog(), IsRewind) == 0 && Count(c.ResumeLog(), IsResume) == if c.dead then 0 else 1
  {
    if !c.dead {
      var fails, goes := Resume(false, false), Resume(!c.fault, false);
      CountTwo(Fault(c.error), fails, IsRewind);
      CountTwo(Fault(c.error), fails, IsResume);
      CountOne(goes, IsRewind);
      CountOne(goes, IsResume);
      CountOne(Resume(true, false), IsRewind);
      CountOne(Resume(true, false), IsResume);
      hide Count;
    }
  }

  /** How often a callback rewinds and resumes. */
  lemma LogCounts(c: Ctx, cb: Cb)
    requires ByJob(cb) || ByRewind(cb)
    ensures Count(LogOf(c, cb), IsRewind) == if ByRewind(cb) && (!c.dead || cb.IntRewind?) then 1 else 0
    ensures Count(LogOf(c, cb), IsResume) == if ByRewind(cb) && !c.dead then 1 else 0
  {
    CountTwo(Rewind, Resume(true, false), IsRewind);
    CountTwo(Rewind, Resume(true, false), IsResume);
    CountOne(Rewind, IsRewind);
    CountOne(Rewind, IsResume);
    CountMore([Rewind], c.ResumeLog(), IsRewind);
    CountMore([Rewind], c.ResumeLog(), IsResume);
    ResumeCounts(c);
    assert Count<Action>([], IsRewind) == 0 == Count<Action>([], IsResume);
    hide Count;
    match cb
    case BoolJob =>
    case IntJob =>
    case PointerJob =>
    case IntRewind =>
    case BoolRewind =>
    case AuthRewind =>
    case PointerReturn =>
    case IntReturn =>
  }

  lemma RunCounts(c: Ctx, cb: Cb, ret: bool)
    requires c.cbs != [] && !c.dead && (ByJob(cb) || ByRewind(cb))
    ensures var d := Run(c, cb, ret);
            && |d.cbs| == |c.cbs| - 1 && (d.count == c.count + 1 || (cb.AuthRewind? && d.count == 0))
            && d.jobs - c.jobs == if ByJob(cb) then 1 else 0
  {
    match cb
    case BoolJob =>
    case IntJob =>
    case PointerJob =>
    case IntRewind =>
    case BoolRewind =>
    case AuthRewind =>
    case PointerReturn =>
    case IntReturn =>
  }

  /** A live context goes on exactly once, by a job or by a rewind with one resume behind it, and has
      one callback less. */
  lemma GoesOnOnce(c: Ctx, cb: Cb, ret: bool)
    requires c.cbs != [] && !c.dead && (ByJob(cb) || ByRewind(cb))
    ensures var d := Run(c, cb, ret);
            && |d.cbs| == |c.cbs| - 1 && (d.count == c.count + 1 || (cb.AuthRewind? && d.count == 0))
            && d.jobs - c.jobs == (if ByJob(cb) then 1 else 0)
            && Count(d.log, IsRewind) - Count(c.log, IsRewind) == (if ByRewind(cb) then 1 else 0)
            && Count(d.log, IsResume) - Count(c.log, IsResume) == (if ByRewind(cb) then 1 else 0)
  {
    RunCounts(c, cb, ret);
    RunLog(c, cb, ret);
    LogCounts(c, cb);
    hide Run, LogOf, Count;
    CountMore(c.log, LogOf(c, cb), IsRewind);
    CountMore(c.log, LogOf(c, cb), IsResume);
  }

  lemma DeadQueuesNothing(c: Ctx, cb: Cb, ret: bool)
    requires c.cbs != [] && c.dead
    ensures Run(c, cb, ret).jobs == c.jobs
  {
    match cb
    case Placeholder =>
    case BoolJob =>
    case IntJob =>
    case PointerJob =>
    case IntRewind =>
    case BoolRewind =>
    case AuthRewind =>
    case PointerReturn =>
    case IntReturn =>
    case Custom(_) =>
  }

  /** A dead context queues no job and is not resumed. */
  lemma DeadDoesNotGoOn(c: Ctx, cb: Cb, ret: bool)
    requires c.cbs != [] && c.dead && (ByJob(cb) || ByRewind(cb))
    ensures var d := Run(c, cb, ret); d.jobs == c.jobs && Count(d.log, IsResume) == Count(c.log, IsResume)
  {
    RunLog(c, cb, ret);
    LogCounts(c, cb);
    DeadQueuesNothing(c, cb, ret);
    hide Run, LogOf, Count;
    CountMore(c.log, LogOf(c, cb), IsResume);
  }

  /** The value is kept for the work that goes on if there is one, and without the callback's passing
      it on nothing changes; cb_int_return keeps even a 0. */
  lemma ValueIsPassedOn(c: Ctx, cb: Cb, ret: bool)
    requires c.cbs != [] && !c.dead
    ensures Run(c, cb, ret).param <==> c.param || (Passes(cb) && (ret || cb.IntReturn?))
  {
    match cb
    case Placeholder =>
    case BoolJob =>
    case IntJob =>
    case PointerJob =>
    case IntRewind =>
    case BoolRewind =>
    case AuthRewind =>
    case PointerReturn =>
    case IntReturn =>
    case Custom(_) =>
  }

  /** The result counts as empty for the handler: no row affected, or none found. */
  predicate Empty(h: Handler, ans: Answer)
    requires ans.Rows?
  {
    if h == ExecHandler then ans.affected == 0 else ans.rows == 0
  }

  function ErrorOf(h: Handler, ans: Answer): Error
    requires ans.Rows?
  {
    if !Empty(h, ans) then NoError else if h == ExecExistsHandler then EntityAlreadyExists else UnknownResource
  }

  /** Of an empty result the head is told 0, or -1 for numbers; else the value, or that there was a result. */
  function ToldOf(h: Handler, ans: Answer): bool
    requires ans.Rows?
  {
    match h
    case IntHandler => Empty(h, ans) || ans.value
    case PtrHandler => !Empty(h, ans) && ans.value
    case _ => !Empty(h, ans)
  }

  predicate OfResults(h: Handler) {
    h.ExecHandler? || h.ExecExistsHandler? || h.PtrHandler? || h.IntHandler? || h.BoolHandler?
  }

  lemma CheckFindsError(c: Ctx, h: Handler, ans: Answer)
    requires ans.Rows? && OfResults(h) && c.error == NoError
    ensures Check(c, h, ans) == c.(error := ErrorOf(h, ans))
  {
    assert c.(error := NoError) == c;
  }

  lemma DeliverCalls(c: Ctx, ok: bool, err: bool)
    requires c.cbs != [] && c.cbs[0] != Placeholder
    ensures Deliver(c, ok, err) == (Run(c, c.cbs[0], if c.error == NoError then ok else err), Called(c.cbs[0]))
  {
    hide Run;
  }

  lemma ToldByError(h: Handler, ans: Answer)
    requires ans.Rows? && OfResults(h)
    ensures ToldOf(h, ans) == if ErrorOf(h, ans) != NoError then h == IntHandler
                              else if h == IntHandler || h == PtrHandler then ans.value else true
  {
  }

  /** What the head of the chain is called with, when no error stood before: the handler's error if
      the result is empty, and the value that goes with it. */
  lemma HeadIsTold(c: Ctx, h: Handler, ans: Answer, env: Env)
    requires ans.Rows? && c.cbs != [] && c.cbs[0] != Placeholder && c.error == NoError && OfResults(h)
    ensures Handle(c, h, ans, env) == (Run(c.(error := ErrorOf(h, ans)), c.cbs[0], ToldOf(h, ans)), Called(c.cbs[0]))
  {
    HandleDelivers(c, h, ans, env);
    CheckFindsError(c, h, ans);
    ToldByError(h, ans);
    DeliverCalls(c.(error := ErrorOf(h, ans)), if h == IntHandler || h == PtrHandler then ans.value else true, h == IntHandler);
    hide Handle, Check, Run, Deliver, ErrorOf, ToldOf;
  }

  lemma HandleDelivers(c: Ctx, h: Handler, ans: Answer, env: Env)
    requires ans.Rows? && OfResults(h)
    ensures Handle(c, h, ans, env) ==
            Deliver(Check(c, h, ans), if h == IntHandler || h == PtrHandler then ans.value else true, h == IntHandler)
  {
    hide Check, Deliver;
    match h
    case IntHandler =>
    case PtrHandler =>
    case ExecHandler =>
    case ExecExistsHandler =>
    case BoolHandler =>
  }

  /** Of a VM that was not found, or after an error, the head is told that there is none. */
  lemma HeadIsToldOfNoVm(c: Ctx, ans: Answer, env: Env)
    requires ans.Rows? && c.cbs != [] && c.cbs[0] != Placeholder && (ans.rows == 0 || c.error != NoError)
    ensures var d := if ans.rows == 0 then c.(error := UnknownResource) else c;
            Handle(c, VmHandler, ans, env) == (Run(d, c.cbs[0], false), Called(c.cbs[0]))
  {
    hide Run;
  }

  lemma RunKeepsState(c: Ctx, cb: Cb, ret: bool)
    requires c.cbs != []
    ensures Run(c, cb, ret).state == c.state
  {
    match cb
    case Placeholder =>
    case BoolJob =>
    case IntJob =>
    case PointerJob =>
    case IntRewind =>
    case BoolRewind =>
    case AuthRewind =>
    case PointerReturn =>
    case IntReturn =>
    case Custom(_) =>
  }

  /** The wish for a single row holds for one answer: a good one that a callback or a handler, not
      one about a node, takes uses it up. */
  lemma StateIsUsedUp(c: Ctx, typed: bool, h: Option<Handler>, ans: Answer, env: Env)
    requires !Bad(c, typed, ans) && !NodeHandler(h) && (h.Some? || c.cbs != [])
    ensures !Dispatch(c, typed, h, ans, env).0.state
  {
    var d := c.(state := false);
    if h.Some? {
      HandleKeepsState(d, h.value, ans, env);
    } else {
      RunKeepsState(d, c.cbs[0], ans.value);
    }
    hide Run, Handle;
  }

  lemma DeliverKeepsState(c: Ctx, ok: bool, err: bool)
    ensures Deliver(c, ok, err).0.state == c.state
  {
    hide Run;
    if c.cbs != [] {
      RunKeepsState(c, c.cbs[0], if c.error == NoError then ok else err);
    }
  }

  lemma HandleKeepsState(c: Ctx, h: Handler, ans: Answer, env: Env)
    requires ans.Rows? && !NodeHandler(Some(h))
    ensures Handle(c, h, ans, env).0.state == c.state
  {
    hide Deliver, Check, HandleVm;
    CheckKeepsState(c, h, ans);
    match h
    case VmHandler => VmKeepsState(c, ans, env);
    case ListHandler(_) => DeliverKeepsState(c, true, true);
    case IntHandler => DeliverKeepsState(Check(c, h, ans), ans.value, true);
    case PtrHandler => DeliverKeepsState(Check(c, h, ans), ans.value, false);
    case BoolHandler => DeliverKeepsState(Check(c, h, ans), true, false);
    case ExecHandler => DeliverKeepsState(Check(c, h, ans), true, false);
    case ExecExistsHandler => DeliverKeepsState(Check(c, h, ans), true, false);
  }

  lemma VmKeepsState(c: Ctx, ans: Answer, env: Env)
    requires ans.Rows?
    ensures HandleVm(c, ans, env).0.state == c.state
  {
    hide Deliver;
    DeliverKeepsState(if ans.rows == 0 then c.(error := UnknownResource) else c, false, false);
  }

  lemma CheckKeepsState(c: Ctx, h: Handler, ans: Answer)
    requires ans.Rows?
    ensures Check(c, h, ans).state == c.state
  {
  }

  /** An enabled node is asked for its configuration: one new query of the same context. */
  lemma EnabledNodeIsAsked(w: World, s: Step)
    requires Enabled(w, s) && s.AnswerQuery? && HandlerOf(w, s.qid) == Some(NodeEnabledHandler)
    requires React(w, s.qid, s.answer, s.first, s.second).1 == Kept
    ensures var w1 := Next(w, s);
            && s.first.Some? && s.first.value in w1.outstanding && w1.outstanding[s.first.value] == w.outstanding[s.qid]
            && s.first.value in w1.typeCbs && HandlerOf(w1, s.first.value) == Some(NodeConfiguredHandler)
  {
    DispatchCases(w.ctxs[w.outstanding[s.qid]], s.qid in w.typeCbs, HandlerOf(w, s.qid), s.answer,
                  EngineRuns.EnvOf(w, s.qid, s.first, s.second));
    AnswerMoves(w, s.qid, s.answer, s.first, s.second);
    hide Dispatch, EventCb, Close, Open;
  }

  /** CTX_CB_ADD refuses a context that is dead or has an error, and forgets nothing. */
  lemma AddsAtTheEnd(c: Ctx, cb: Cb)
    ensures c.Add(cb).cbs == c.cbs <==> c.dead || c.error != NoError
    ensures c.cbs <= c.Add(cb).cbs && c.Add(cb).(cbs := c.cbs) == c
  {
  }

  /** The error that an error event is about. */
  lemma ErrorIsNamed(c: Ctx, typed: bool, h: Option<Handler>, ans: Answer, env: Env)
    requires BecomesError(c, typed, h, ans, env)
    ensures Dispatch(c, typed, h, ans, env).0.error ==
            if ans.Failed? then DbQuery
            else if Bad(c, typed, ans) then DbMulti
            else if h == Some(NodeConfiguredHandler) then NodeUnconfigured
            else if ans.rows == 0 then UnknownResource
            else if !ans.value then NodeDisabled
            else DbFail
  {
    hide Run;
  }

  /** The RESUME macro tells a live client success exactly when no fault stands afterwards, or there
      is no content that could carry one; and the context's error becomes the fault once. */
  lemma ResumesByFault(c: Ctx)
    requires !c.dead
    ensures var log := c.ResumeLog();
            && log != [] && log[|log| - 1] == Resume(c.content == Gone || !c.FaultAfterResume(), false)
            && (Fault(c.error) in log <==> c.content != Gone && c.error != NoError && !c.fault)
  {
  }
}
