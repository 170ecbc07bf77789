/** CHECK_EXIST_AND_PRIVS: the gate in front of a method, run again from the top on every rewind. */
module Gate {
  import opened Options
  import opened Engine
  import opened EngineState

  datatype Outcome = Refused | AskExists | AskOwner | Enter

  /** NOT_AUTHORIZED, and the client resumed with failure. */
  function Refuse(c: Ctx): Ctx {
    c.(fault := true, log := c.log + [Fault(NotAuthorized), Resume(false, false)])
  }

  /** A query that cannot be created: the error, and CTX_RETURN with it. */
  function NoQuery(c: Ctx): Ctx {
    c.(error := DbFail, fault := true, log := c.log + [Fault(DbFail), Resume(false, false)])
  }

  /** One pass of the macro; created says whether its query, if it makes one, can be created. */
  function Pass(c: Ctx, superUser: bool, created: bool): (Ctx, Outcome) {
    if !c.checked && !c.auth then
      if c.error != NoError then (Refuse(c), Refused)
      else if superUser then (c.(auth := true, checked := true), Enter)
      else if c.count == 0 then
        if created then (c.(state := true).Add(BoolRewind), AskExists) else (NoQuery(c), Refused)
      else
        if created then (c.(state := true, checked := true).Add(AuthRewind), AskOwner)
        else (NoQuery(c.(checked := true)), Refused)
    else if !c.auth then (Refuse(c), Refused)
    else (c, Enter)
  }

  /** _isTYPE and _isTYPEowner: the query, or CTX_RETURN with the error. */
  method Query(ctx: Context, created: bool)
    modifies ctx`state, ctx`error, ctx`fault, ctx`log
    ensures created ==> ctx.View() == old(ctx.View()).(state := true)
    ensures !created ==> ctx.View() == NoQuery(old(ctx.View()))
  {
    if created {
      ctx.state := true;
    } else {
      ctx.error := DbFail;
      ctx.fault := true;
      ctx.log := ctx.log + [Fault(DbFail), Resume(false, false)];
    }
  }

  method Ask(ctx: Context, created: bool, cb: Cb)
    modifies ctx`state, ctx`error, ctx`fault, ctx`log, ctx`cbs
    ensures ctx.View() == if created then old(ctx.View()).(state := true).Add(cb) else NoQuery(old(ctx.View()))
  {
    Query(ctx, created);
    ctx.CbAdd(cb);
  }

  method RefuseCall(ctx: Context)
    modifies ctx`fault, ctx`log
    ensures ctx.View() == Refuse(old(ctx.View()))
  {
    ctx.fault := true;
    ctx.log := ctx.log + [Fault(NotAuthorized), Resume(false, false)];
  }

  /** The macro, on a context. */
  method CheckExistAndPrivs(ctx: Context, superUser: bool, created: bool) returns (out: Outcome)
    modifies ctx
    ensures (ctx.View(), out) == Pass(old(ctx.View()), superUser, created)
  {
    if !ctx.checked && !ctx.auth {
      if ctx.error != NoError {
        RefuseCall(ctx);
        return Refused;
      }
      if superUser {
        ctx.auth := true;
        ctx.checked := true;
      } else if ctx.count == 0 {
        Ask(ctx, created, BoolRewind);
        return if created then AskExists else Refused;
      } else {
        Ask(ctx, created, AuthRewind);
        ctx.checked := true;
        return if created then AskOwner else Refused;
      }
    }
    if !ctx.auth {
      RefuseCall(ctx);
      return Refused;
    }
    return Enter;
  }

  /** Where the call is: about to run from the top, waiting for an answer, inside FUNC, or over. */
  datatype Phase = Ready | AwaitExists | AwaitOwner | InFunc | Over

  /** A call of the method, with the answers that the gate has had, the queries that it has made,
      whether one could not be created, and the count each time FUNC was entered. */
  datatype Call = Call(
    ctx: Ctx, superUser: bool, phase: Phase, existence: Option<Answer>, owner: Option<Answer>,
    queries: seq<Outcome>, uncreated: bool, entries: seq<int>)

  datatype Step =
    | RunMethod(created: bool)
    | AnswerQuery(answer: Answer)
    | FuncRewinds(next: Ctx)
    | FuncEnds

  /** FUNC may do what it likes with the context, but it does not touch the gate's two flags. */
  predicate Enabled(k: Call, s: Step) {
    match s
    case RunMethod(_) => k.phase.Ready?
    case AnswerQuery(_) => k.phase.AwaitExists? || k.phase.AwaitOwner?
    case FuncRewinds(c) => k.phase.InFunc? && c.checked == k.ctx.checked && c.auth == k.ctx.auth
    case FuncEnds => k.phase.InFunc?
  }

  function Next(k: Call, s: Step): Call
    requires Enabled(k, s)
  {
    match s
    case RunMethod(created) =>
      var (c, out) := Pass(k.ctx, k.superUser, created);
      (match out
       case Refused => k.(ctx := c, phase := Over, uncreated := c.error == DbFail && !created)
       case AskExists => k.(ctx := c, phase := AwaitExists, queries := k.queries + [out])
       case AskOwner => k.(ctx := c, phase := AwaitOwner, queries := k.queries + [out])
       case Enter => k.(ctx := c, phase := InFunc, entries := k.entries + [c.count]))
    case AnswerQuery(ans) =>
      var (c, effect) := Dispatch(k.ctx, true, Some(BoolHandler), ans, NOTHING);
      var l := if k.phase.AwaitExists? then k.(existence := Some(ans)) else k.(owner := Some(ans));
      if effect == Posted(ErrorEvent) then l.(ctx := OnError(c), phase := Over) else l.(ctx := c, phase := Ready)
    case FuncRewinds(c) => k.(ctx := c, phase := Ready)
    case FuncEnds => k.(phase := Over)
  }

  ghost predicate Reaches(k: Call, run: seq<Step>, k': Call)
    decreases |run|
  {
    if run == [] then k == k' else Enabled(k, run[0]) && Reaches(Next(k, run[0]), run[1..], k')
  }

  /** A live context without an error or callbacks, which no gate has looked at. */
  ghost predicate Clean(c: Ctx) {
    && c.cbs == [] && c.error == NoError && !c.dead && !c.checked && !c.auth
  }

  function Start(c: Ctx, superUser: bool): Call {
    Call(c, superUser, Ready, None, None, [], false, [])
  }

  /** A single row: the query's answer is yes. */
  predicate Positive(a: Option<Answer>) {
    a.Some? && a.value.Rows? && a.value.rows == 1
  }

  ghost predicate Untouched(k: Call) {
    k.phase.Ready? && Clean(k.ctx) && k.ctx.count == 0 && k.queries == [] && k.existence.None? && k.owner.None?
  }

  /** The last thing that the client saw was a failure. */
  predicate ToldNo(log: seq<Action>) {
    log != [] && log[|log| - 1].Resume? && !log[|log| - 1].ok
  }

  /** The call was rewound, and its client resumed with success, so that it runs again. */
  predicate RunsAgain(log: seq<Action>) {
    |log| >= 2 && log[|log| - 2..] == [Rewind, Resume(true, false)]
  }

  /** The states before FUNC is first entered, and those after it. */
  ghost predicate Before(k: Call) {
    var c := k.ctx;
    match k.phase
    case Ready =>
      Untouched(k)
      || (k.queries == [AskExists] && !c.dead && !c.checked && !c.auth && c.cbs == [] && c.count == 1 && k.owner.None? && k.existence.Some?
          && !k.superUser && (c.error == NoError <==> Positive(k.existence)) && RunsAgain(c.log))
      || (k.queries == [AskExists, AskOwner] && !c.dead && c.checked && c.count == 0 && !k.superUser
          && Positive(k.existence) && k.owner.Some? && (c.auth <==> Positive(k.owner)) && RunsAgain(c.log))
    case AwaitExists =>
      k.queries == [AskExists] && !c.dead && !c.checked && !c.auth && c.cbs == [BoolRewind] && c.count == 0
      && c.error == NoError && c.state && !k.superUser && k.existence.None? && k.owner.None?
    case AwaitOwner =>
      k.queries == [AskExists, AskOwner] && !c.dead && c.checked && !c.auth && c.cbs == [AuthRewind]
      && c.error == NoError && c.state && !k.superUser && Positive(k.existence) && k.owner.None?
    case InFunc => false
    case Over =>
      |k.queries| <= 2 && !k.superUser && ToldNo(c.log)
      && (k.uncreated || (k.existence.Some? && !Positive(k.existence)) || (k.owner.Some? && !Positive(k.owner)))
  }

  ghost predicate Inside(k: Call) {
    && k.entries != [] && k.entries[0] == 0 && (k.phase.InFunc? || k.phase.Ready? || k.phase.Over?)
    && (k.superUser || (Positive(k.existence) && Positive(k.owner)))
    && (!k.phase.Over? ==> k.ctx.checked && k.ctx.auth)
    && k.queries == if k.superUser then [] else [AskExists, AskOwner]
  }

  ghost predicate Inv(k: Call) {
    if k.entries == [] then Before(k) else Inside(k)
  }

  lemma PassKeepsInv(k: Call, created: bool)
    requires Inv(k) && k.phase.Ready?
    ensures Inv(Next(k, RunMethod(created)))
  {
    var c := k.ctx;
    if k.entries != [] {
    } else if Untouched(k) {
    } else if k.queries == [AskExists] {
      assert !c.checked && !c.auth && c.count == 1;
    } else {
      assert c.checked;
    }
  }

  /** An answer of the gate: a database failure, or the head of the chain, told whether there was a row. */
  lemma GateAnswer(c: Ctx, ans: Answer, cb: Cb)
    requires c.cbs == [cb] && cb != Placeholder && c.error == NoError && c.state
    ensures var (d, e) := Dispatch(c, true, Some(BoolHandler), ans, NOTHING);
            if ans.Failed? || ans.rows > 1 then e == Posted(ErrorEvent)
            else
              var yes := ans.rows == 1;
              && e == Called(cb)
              && d == Run(c.(state := false, error := if yes then NoError else UnknownResource), cb, yes)
  {
    hide Run;
  }

  lemma LogEnds(log: seq<Action>)
    ensures RunsAgain(log + [Rewind, Resume(true, false)])
  {
    var more := log + [Rewind, Resume(true, false)];
    assert more[|more| - 2..] == [Rewind, Resume(true, false)];
  }

  lemma ErrorTellsNo(c: Ctx)
    requires !c.dead
    ensures ToldNo(OnError(c).log)
  {
  }

  lemma ExistsKeepsInv(k: Call, ans: Answer)
    requires Inv(k) && k.phase.AwaitExists?
    ensures Inv(Next(k, AnswerQuery(ans)))
  {
    GateAnswer(k.ctx, ans, BoolRewind);
    LogEnds(k.ctx.log);
    ErrorTellsNo(Dispatch(k.ctx, true, Some(BoolHandler), ans, NOTHING).0);
    hide Dispatch, ToldNo, RunsAgain, OnError;
  }

  lemma OwnerKeepsInv(k: Call, ans: Answer)
    requires Inv(k) && k.phase.AwaitOwner?
    ensures Inv(Next(k, AnswerQuery(ans)))
  {
    GateAnswer(k.ctx, ans, AuthRewind);
    LogEnds(k.ctx.log);
    ErrorTellsNo(Dispatch(k.ctx, true, Some(BoolHandler), ans, NOTHING).0);
    hide Dispatch, ToldNo, RunsAgain, OnError;
  }

  lemma AnswerKeepsInv(k: Call, ans: Answer)
    requires Inv(k) && (k.phase.AwaitExists? || k.phase.AwaitOwner?)
    ensures Inv(Next(k, AnswerQuery(ans)))
  {
    if k.phase.AwaitExists? {
      ExistsKeepsInv(k, ans);
    } else {
      OwnerKeepsInv(k, ans);
    }
  }

  lemma StepKeepsInv(k: Call, s: Step)
    requires Inv(k) && Enabled(k, s)
    ensures Inv(Next(k, s)) && Next(k, s).superUser == k.superUser
    ensures k.entries != [] ==> Next(k, s).entries != [] && Next(k, s).queries == k.queries
  {
    hide Dispatch;
    match s
    case RunMethod(created) => PassKeepsInv(k, created);
    case AnswerQuery(ans) => AnswerKeepsInv(k, ans);
    case _ =>
  }

  /** Once FUNC has been entered, every later rewind passes the gate without a query. */
  lemma {:induction false} RunKeepsInv(k: Call, run: seq<Step>, k': Call)
    requires Inv(k) && Reaches(k, run, k')
    ensures Inv(k') && k'.superUser == k.superUser
    ensures k.entries != [] ==> k'.entries != [] && k'.queries == k.queries
    decreases |run|
  {
    if run != [] {
      StepKeepsInv(k, run[0]);
      RunKeepsInv(Next(k, run[0]), run[1..], k');
    }
  }

  /** FUNC, if it has been entered, was first entered with count 0, and for a super user or after
      both answers were yes; a call that ended without FUNC was no super user's, a query could not be
      created or one of the two answers was no, and the last that its client saw was a failure; a
      call that is to run the gate again has been rewound and resumed; and the gate has made at most
      two queries. */
  ghost predicate Guarded(k: Call) {
    && |k.queries| <= 2 && (k.superUser ==> k.queries == [])
    && (k.entries != [] ==> k.entries[0] == 0 && (k.superUser || (Positive(k.existence) && Positive(k.owner))))
    && (k.phase.Over? && k.entries == [] ==>
          && !k.superUser && ToldNo(k.ctx.log)
          && (k.uncreated || (k.existence.Some? && !Positive(k.existence)) || (k.owner.Some? && !Positive(k.owner))))
    && (k.phase.Ready? && k.entries == [] && k.queries != [] ==> RunsAgain(k.ctx.log))
  }

  lemma GuardedFromZero(c: Ctx, superUser: bool, run: seq<Step>, k: Call)
    requires Clean(c) && c.count == 0 && Reaches(Start(c, superUser), run, k)
    ensures Guarded(k)
  {
    RunKeepsInv(Start(c, superUser), run, k);
  }

  /** From another count a super user enters FUNC at once with that count, and anyone else after the
      ownership query alone. */
  lemma FromElsewhere(c: Ctx, superUser: bool) returns (run: seq<Step>, k: Call)
    requires Clean(c) && c.count != 0
    ensures Reaches(Start(c, superUser), run, k) && !Guarded(k)
  {
    var k0 := Start(c, superUser);
    var k1 := Next(k0, RunMethod(true));
    if superUser {
      run, k := [RunMethod(true)], k1;
      assert Reaches(k1, run[1..], k1);
    } else {
      var yes := Rows(1, 0, true, []);
      assert k1.phase.AwaitOwner? && k1.ctx.cbs == [AuthRewind] && k1.ctx.state && k1.ctx.error == NoError;
      GateAnswer(k1.ctx, yes, AuthRewind);
      var k2 := Next(k1, AnswerQuery(yes));
      assert k2.phase.Ready? && k2.ctx.auth && k2.ctx.checked && k2.existence.None?;
      k := Next(k2, RunMethod(true));
      run := [RunMethod(true), AnswerQuery(yes), RunMethod(true)];
      hide Dispatch, Pass;
      assert Reaches(k, [], k);
      assert run[1..][1..][1..] == [] && Reaches(k2, run[1..][1..], k);
      assert Reaches(k1, run[1..], k);
    }
  }

  /** The gate guards its method over every run if and only if it starts with count 0. */
  lemma GateIsExact(c: Ctx, superUser: bool)
    requires Clean(c)
    ensures (forall run, k :: Reaches(Start(c, superUser), run, k) ==> Guarded(k)) <==> c.count == 0
  {
    if c.count == 0 {
      forall run, k | Reaches(Start(c, superUser), run, k) ensures Guarded(k) {
        GuardedFromZero(c, superUser, run, k);
      }
    } else {
      var run, k := FromElsewhere(c, superUser);
    }
  }
}
