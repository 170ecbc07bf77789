/** The pre-call and the gate behind it: what lets a call into a guarded method. */
module Admission {
  import opened Options
  import Engine
  import PreCall
  import Gate

  /** The context that the pre-call leaves to the method: its own callbacks have all run. */
  ghost predicate LeftBy(s: PreCall.State, c: Engine.Ctx) {
    && c.cbs == [] && !c.dead && !c.auth && c.count == s.count && c.checked == s.checked
    && (c.error == Engine.NoError <==> !s.error)
  }

  /** The gate's question: !ctx->user_type */
  predicate SuperUser(s: PreCall.State) { s.userType == 0 }

  /** For a call that needs a session: the gate guards the method over every run if and only if it
      was not single sign-on that let the call in; and then the session was authenticated and within
      its timeout, and the gate goes by the user's type that the database told. */
  lemma GuardedAfterPreCall(r: PreCall.Request, run: seq<PreCall.Step>, s: PreCall.State, c: Engine.Ctx)
    requires PreCall.Reaches(PreCall.Start(r), run, s) && s.phase.Proceeds? && PreCall.NeedsSession(r)
    requires LeftBy(s, c)
    ensures (forall steps, k :: Gate.Reaches(Gate.Start(c, SuperUser(s)), steps, k) ==> Gate.Guarded(k)) <==> !s.trusted
    ensures !s.trusted ==>
              s.authenticated && s.checkedAt - s.timestamp <= s.timeout && PreCall.Told(run, s.userType)
  {
    PreCall.LeavesContextTidy(r, run, s);
    PreCall.PreCallIsBoundedAndSafe(r, run, s);
    hide PreCall.Reaches, PreCall.Told;
    Gate.GateIsExact(c, SuperUser(s));
  }

  /** A call that single sign-on let in has never asked for the user's type, so the gate takes it for
      a super user's: the first pass enters the method, without a query. */
  lemma AfterSingleSignOn(r: PreCall.Request, run: seq<PreCall.Step>, s: PreCall.State, c: Engine.Ctx, created: bool)
    requires PreCall.Reaches(PreCall.Start(r), run, s) && s.phase.Proceeds? && PreCall.NeedsSession(r)
    requires LeftBy(s, c) && s.trusted
    ensures SuperUser(s)
    ensures var k := Gate.Next(Gate.Start(c, SuperUser(s)), Gate.RunMethod(created));
            k.phase == Gate.InFunc && k.entries == [5] && k.queries == []
  {
    PreCall.LeavesContextTidy(r, run, s);
    hide PreCall.Reaches, PreCall.Told;
  }
}
