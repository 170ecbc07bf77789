/** session_pre_call: the check in front of every call, run again from the top until it decides. */
module PreCall {
  import opened Options

  datatype Procedure = Login | Hello | Logout | Ordinary

  /** What does not change during a call. A call without content and a plain GET are downloads. */
  datatype Request = Request(procedure: Procedure, content: bool, get: bool, cookieValid: bool)

  datatype Status = Unchecked | NotAuthorized | ValidSession | ExpiredSession

  /** What the pass is waiting for: the answer about the proxy, the single sign-on decision, the
      stored session, the timeout, the user's type, or a new or a known session being saved. */
  datatype Question = AskProxied | AskSso | AskSession | AskTimeout | AskUserType | SaveNew | SaveKnown

  datatype Phase = Ready | Waiting(question: Question) | Proceeds | Refused

  /** The session and context fields that the pre-call uses. checkedAt and the timeout, in seconds,
      are those of the last check; userType is 0 for a super user, and for a context that has not asked;
      trusted says whether single sign-on has accepted the client; passes counts the runs from the top. */
  datatype State = State(
    request: Request, error: bool, count: nat, clientHost: bool, sessionId: bool, checked: bool,
    authenticated: bool, timestamp: int, status: Status, checkedAt: int, timeout: int, userType: nat,
    trusted: bool, phase: Phase, passes: nat)

  const DEFAULT_SESSION_TIMEOUT := 15

  function Start(r: Request): State {
    State(r, false, 0, false, false, false, false, 0, Unchecked, 0, 0, 0, false, Ready, 0)
  }

  /** Wait for an answer, unless the query could not be created or an error stands: CTX_RETURN.
      The session id is taken from the cookie, or made up, with the query for the session. */
  function Ask(s: State, created: bool, q: Question, passes: nat): State {
    var id := s.sessionId || q.AskSession? || q.SaveNew?;
    if created && !s.error then s.(sessionId := id, phase := Waiting(q), passes := passes)
    else s.(sessionId := id, error := true, phase := Refused, passes := passes)
  }

  predicate SessionOptional(r: Request) {
    !r.content || r.procedure.Login? || r.procedure.Hello?
  }

  /** What a pass does: a query, the end of the call, or its start (a login forgets who was there). */
  datatype Decision = Query(question: Question) | Reject | Go(forget: bool)

  /** The branches of session_pre_call. */
  function Decide(s: State): Decision {
    var r := s.request;
    if !s.clientHost then Query(AskProxied)
    else if !r.cookieValid then
      if SessionOptional(r) then Query(SaveNew)
      else if s.count == 0 then Query(AskSso)
      else Reject
    else if !s.checked then
      if s.count == 0 then Query(AskSso)
      else if !s.sessionId then Query(AskSession)
      else Query(AskTimeout)
    else if r.procedure.Login? || r.procedure.Hello? then Go(true)
    else if (s.authenticated && r.procedure.Logout?) || r.get then Go(false)
    else if s.status == ValidSession then Query(AskUserType)
    else Reject
  }

  /** One pass of session_pre_call. */
  function Pass(s: State, created: bool): State {
    match Decide(s)
    case Query(q) => Ask(s, created, q, s.passes + 1)
    case Reject => s.(error := true, phase := Refused, passes := s.passes + 1)
    case Go(forget) =>
      s.(authenticated := s.authenticated && !forget, error := false, phase := Proceeds, passes := s.passes + 1)
  }

  /** session_checker: an absent timeout, an error, or a number out of range gives the default. */
  function Checked(s: State, configured: Option<Option<int>>, now: int): State {
    var timeout :=
      if configured.None? || s.error then DEFAULT_SESSION_TIMEOUT * 60
      else if configured.value.None? then DEFAULT_SESSION_TIMEOUT * 60
      else configured.value.value * 60;
    var age := now - s.timestamp;
    s.(error := false, checked := true, checkedAt := now, timeout := timeout, phase := Ready,
       status := if !s.authenticated then NotAuthorized else if age <= timeout then ValidSession else ExpiredSession)
  }

  /** Single sign-on, decided elsewhere. */
  datatype Sso = Disabled | Rejected(error: bool) | Accepted

  /** An answer: a failed query, or what it found. */
  datatype Answer =
    | Failed
    | Proxied(row: bool)
    | SsoDecision(sso: Sso, steps: nat)
    | StoredSession(session: Option<(bool, int)>)
    | Timeout(configured: Option<Option<int>>, now: int)
    | UserType(row: bool, kind: nat)
    | Saved(affected: bool)

  predicate Answers(a: Answer, q: Question) {
    match a
    case Failed => true
    case Proxied(_) => q.AskProxied?
    case SsoDecision(_, _) => q.AskSso?
    case StoredSession(_) => q.AskSession?
    case Timeout(_, _) => q.AskTimeout?
    case UserType(_, _) => q.AskUserType?
    case Saved(_) => q.SaveNew? || q.SaveKnown?
  }

  /** The callbacks: an answer to a rewound pass makes it run again. */
  function Reply(s: State, a: Answer, created: bool): State
    requires s.phase.Waiting? && Answers(a, s.phase.question)
  {
    match a
    case Failed => s.(error := true, phase := Refused)
    case Proxied(row) => s.(error := s.error || !row, clientHost := true, phase := Ready)
    case SsoDecision(sso, steps) =>
      (match sso
       case Disabled => s.(error := false, count := 2, phase := Ready)
       case Rejected(e) => s.(error := e, count := 2 + steps, phase := Ready)
       case Accepted => s.(error := false, count := 5, trusted := true, phase := Proceeds))
    case StoredSession(session) =>
      if session.None? then s.(phase := Ready)
      else s.(authenticated := session.value.0, timestamp := session.value.1, phase := Ready)
    case Timeout(configured, now) => Checked(s, configured, now)
    case UserType(row, kind) =>
      if !row then s.(error := true, phase := Refused)
      else if s.error || !created then s.(userType := kind, count := 0, checked := false, error := true, phase := Refused)
      else s.(userType := kind, count := 0, checked := false, phase := Waiting(SaveKnown))
    case Saved(affected) =>
      if s.phase.question.SaveNew? && !affected then s.(error := true, phase := Refused)
      else s.(error := false, phase := Proceeds)
  }

  datatype Step = RunPass(created: bool) | GetAnswer(answer: Answer, created: bool)

  predicate Enabled(s: State, t: Step) {
    match t
    case RunPass(_) => s.phase.Ready?
    case GetAnswer(a, _) => s.phase.Waiting? && Answers(a, s.phase.question)
  }

  function Next(s: State, t: Step): State
    requires Enabled(s, t)
  {
    match t
    case RunPass(created) => Pass(s, created)
    case GetAnswer(a, created) => Reply(s, a, created)
  }

  ghost predicate Reaches(s: State, run: seq<Step>, s': State)
    decreases |run|
  {
    if run == [] then s == s' else Enabled(s, run[0]) && Reaches(Next(s, run[0]), run[1..], s')
  }

  /** The four latches that are set. */
  function Latches(s: State): nat {
    (if s.clientHost then 1 else 0) + (if s.count > 0 then 1 else 0)
    + (if s.sessionId then 1 else 0) + (if s.checked then 1 else 0)
  }

  /** Passes are paid for by latches: at most one more pass than latches set. */
  ghost predicate Paid(s: State) {
    match s.phase
    case Ready => s.passes <= Latches(s)
    case Waiting(q) =>
      && s.passes <= 5
      && (match q
          case AskProxied => s.passes <= Latches(s) + 1 && !s.clientHost
          case AskSso => s.passes <= Latches(s) + 1 && s.count == 0
          case AskSession => s.passes <= Latches(s)
          case AskTimeout => s.passes <= Latches(s) + 1 && !s.checked
          case _ => true)
    case _ => s.passes <= 5
  }

  /** What a pass does to the latches: it can set session_id, no other, and clears none. */
  lemma PassLatches(s: State, created: bool)
    ensures var w := Pass(s, created);
            && w.clientHost == s.clientHost && w.count == s.count && w.checked == s.checked
            && (s.sessionId ==> w.sessionId) && w.passes == s.passes + 1 && !w.phase.Ready?
            && (w.phase == Waiting(AskProxied) ==> !s.clientHost)
            && (w.phase == Waiting(AskSso) ==> s.count == 0)
            && (w.phase == Waiting(AskSession) ==> !s.sessionId && w.sessionId)
            && (w.phase == Waiting(AskTimeout) ==> !s.checked)
  {
    DecideMeans(s);
    hide Decide;
  }

  lemma DecideMeans(s: State)
    ensures match Decide(s)
            case Query(q) =>
              (match q
               case AskProxied => !s.clientHost
               case AskSso => s.count == 0
               case AskSession => !s.sessionId
               case AskTimeout => !s.checked && s.sessionId
               case AskUserType => s.status == ValidSession
               case SaveNew => SessionOptional(s.request)
               case SaveKnown => false)
            case Reject => true
            case Go(forget) =>
              && (forget ==> SessionOptional(s.request))
              && (SessionOptional(s.request) || s.request.get || (s.request.procedure.Logout? && s.authenticated))
  {
  }

  /** What an answer that makes the pre-call run again does to them: it sets the one that the pass
      asked for, and clears none. */
  lemma ReplyLatches(s: State, a: Answer, created: bool)
    requires s.phase.Waiting? && Answers(a, s.phase.question)
    ensures var t := Reply(s, a, created);
            t.passes == s.passes && (t.phase.Waiting? ==> t.phase == Waiting(SaveKnown))
    ensures var t := Reply(s, a, created); t.phase.Ready? ==>
              && t.clientHost == (s.clientHost || s.phase.question.AskProxied?)
              && (t.count > 0 <==> s.count > 0 || s.phase.question.AskSso?)
              && t.sessionId == s.sessionId
              && t.checked == (s.checked || s.phase.question.AskTimeout?)
              && (s.phase.question.AskProxied? || s.phase.question.AskSso? || s.phase.question.AskSession? || s.phase.question.AskTimeout?)
  {
    match a
    case Failed =>
    case Proxied(_) =>
    case SsoDecision(_, _) =>
    case StoredSession(_) =>
    case Timeout(_, _) =>
    case UserType(_, _) =>
    case Saved(_) =>
  }

  /** A pass that is answered by running again has set at least one more latch, and cleared none. */
  lemma RewindSetsALatch(s: State, created: bool, a: Answer, created2: bool)
    requires s.phase.Ready? && Enabled(Pass(s, created), GetAnswer(a, created2))
    requires Reply(Pass(s, created), a, created2).phase.Ready?
    ensures var t := Reply(Pass(s, created), a, created2);
            && Latches(t) > Latches(s)
            && (s.clientHost ==> t.clientHost) && (s.count > 0 ==> t.count > 0)
            && (s.sessionId ==> t.sessionId) && (s.checked ==> t.checked)
  {
    hide Pass, Reply;
    PassLatches(s, created);
    ReplyLatches(Pass(s, created), a, created2);
  }

  lemma StepKeepsPaid(s: State, t: Step)
    requires Paid(s) && Enabled(s, t)
    ensures Paid(Next(s, t))
  {
    hide Pass, Reply;
    match t
    case RunPass(created) => PassLatches(s, created);
    case GetAnswer(a, created) => ReplyLatches(s, a, created);
  }

  /** The reasons for which a call may go on. */
  ghost predicate Entitled(s: State) {
    var r := s.request;
    || (s.authenticated && s.status == ValidSession && s.checkedAt - s.timestamp <= s.timeout)
    || s.trusted || SessionOptional(r) || r.get || (r.procedure.Logout? && s.authenticated)
  }

  ghost predicate Safe(s: State) {
    && (s.status == ValidSession && !(s.phase.Proceeds? && SessionOptional(s.request)) ==>
          s.authenticated && s.checkedAt - s.timestamp <= s.timeout)
    && (s.phase == Waiting(AskUserType) || s.phase == Waiting(SaveKnown) ==> s.status == ValidSession)
    && (s.phase == Waiting(SaveNew) ==> SessionOptional(s.request))
    && (s.phase == Waiting(AskSession) ==> s.status == Unchecked)
    && (s.phase == Waiting(AskTimeout) ==> s.sessionId)
    && (s.status != Unchecked ==> s.sessionId)
    && (s.phase.Proceeds? ==> Entitled(s))
  }

  lemma PassKeepsSafe(s: State, created: bool)
    requires Safe(s) && s.phase.Ready?
    ensures Safe(Pass(s, created)) && Pass(s, created).request == s.request
  {
    DecideMeans(s);
    hide Decide;
  }

  lemma CheckedIsSafe(s: State, configured: Option<Option<int>>, now: int)
    requires Safe(s) && s.sessionId
    ensures Safe(Checked(s, configured, now)) && Checked(s, configured, now).request == s.request
  {
    hide Entitled;
  }

  lemma ReplyKeepsSafe(s: State, a: Answer, created: bool)
    requires Safe(s) && s.phase.Waiting? && Answers(a, s.phase.question)
    ensures Safe(Reply(s, a, created)) && Reply(s, a, created).request == s.request
  {
    hide Checked;
    match a
    case Failed => hide Entitled;
    case Proxied(_) => hide Entitled;
    case SsoDecision(sso, _) => if sso.Accepted? {} else if sso.Disabled? {} else {}
    case StoredSession(session) => if session.None? {} else {}
    case Timeout(configured, now) => CheckedIsSafe(s, configured, now);
    case UserType(row, _) => if row && created && !s.error {} else {}
    case Saved(affected) => if affected {} else if s.phase.question.SaveNew? {} else {}
  }

  lemma {:induction false} RunKeeps(s: State, run: seq<Step>, t: State)
    requires Paid(s) && Safe(s) && Reaches(s, run, t)
    ensures Paid(t) && Safe(t) && t.request == s.request
    decreases |run|
  {
    if run != [] {
      StepKeepsPaid(s, run[0]);
      match run[0] {
        case RunPass(created) => PassKeepsSafe(s, created);
        case GetAnswer(a, created) => ReplyKeepsSafe(s, a, created);
      }
      hide Paid, Safe, Pass, Reply;
      RunKeeps(Next(s, run[0]), run[1..], t);
    }
  }

  /** Over every run of the pre-call: it passes at most five times, and an ordinary call (one with
      content that is no plain GET), unless single sign-on has accepted the client, goes on only
      with an authenticated session that was no older than the timeout when it was checked. */
  lemma PreCallIsBoundedAndSafe(r: Request, run: seq<Step>, s: State)
    requires Reaches(Start(r), run, s)
    ensures s.passes <= 5
    ensures s.phase.Proceeds? && r.procedure.Ordinary? && r.content && !r.get && !s.trusted ==>
              s.authenticated && s.status == ValidSession && s.checkedAt - s.timestamp <= s.timeout
  {
    RunKeeps(Start(r), run, s);
  }

  /** The second pass of every call is refused if and only if the proxied setting had no row, whose
      error is still there, or the pass's own query could not be created. */
  lemma ProxySettingNeeded(r: Request, row: bool, created: bool)
    ensures var w := Pass(Start(r), true);
            && w.phase == Waiting(AskProxied)
            && (Pass(Reply(w, Proxied(row), true), created).phase.Refused? <==> !row || !created)
  {
  }

  // ---- What it leaves behind ----

  /** A call that needs a session: an ordinary method with content, and no plain GET. */
  predicate NeedsSession(r: Request) {
    r.procedure.Ordinary? && r.content && !r.get
  }

  /** What is true of such a call on its way, so that it ends with a context ready for the method. */
  ghost predicate Tidy(s: State) {
    && (s.trusted ==> s.phase.Proceeds? && s.count == 5 && !s.checked && !s.error && s.userType == 0)
    && (s.phase.Ready? || (s.phase.Waiting? && s.phase != Waiting(SaveKnown)) ==> s.userType == 0)
    && (s.checked || s.phase == Waiting(AskTimeout) ==> s.request.cookieValid)
    && (s.phase == Waiting(AskSso) ==> !s.checked)
    && (s.phase == Waiting(SaveKnown) ==> s.count == 0 && !s.checked)
    && (s.phase == Waiting(SaveNew) ==> !NeedsSession(s.request))
    && (s.phase.Proceeds? && NeedsSession(s.request) && !s.trusted ==> s.count == 0 && !s.checked && !s.error)
  }

  lemma PassKeepsTidy(s: State, created: bool)
    requires Tidy(s) && s.phase.Ready?
    ensures Tidy(Pass(s, created))
  {
  }

  lemma ReplyKeepsTidy(s: State, a: Answer, created: bool)
    requires Tidy(s) && s.phase.Waiting? && Answers(a, s.phase.question)
    ensures Tidy(Reply(s, a, created))
  {
    match a
    case Failed =>
    case Proxied(_) =>
    case SsoDecision(_, _) =>
    case StoredSession(_) =>
    case Timeout(_, _) =>
    case UserType(_, _) =>
    case Saved(_) =>
  }

  lemma {:induction false} RunKeepsTidy(s: State, run: seq<Step>, t: State)
    requires Tidy(s) && Reaches(s, run, t)
    ensures Tidy(t)
    decreases |run|
  {
    if run != [] {
      match run[0] {
        case RunPass(created) => PassKeepsTidy(s, created);
        case GetAnswer(a, created) => ReplyKeepsTidy(s, a, created);
      }
      hide Tidy, Pass, Reply;
      RunKeepsTidy(Next(s, run[0]), run[1..], t);
    }
  }

  /** The run has had an answer that the user's type is kind. */
  ghost predicate Told(run: seq<Step>, kind: nat) {
    exists i :: 0 <= i < |run| && run[i].GetAnswer? && run[i].answer == UserType(true, kind)
  }

  /** The call is past the question for the user's type. */
  predicate PastUserType(s: State) {
    s.phase == Waiting(SaveKnown) || (s.phase.Proceeds? && NeedsSession(s.request) && !s.trusted)
  }

  lemma StepToUserType(s: State, t: Step)
    requires Tidy(s) && Enabled(s, t) && PastUserType(Next(s, t))
    ensures (PastUserType(s) && Next(s, t).userType == s.userType)
            || (t.GetAnswer? && t.answer == UserType(true, Next(s, t).userType))
  {
    match t
    case RunPass(created) => DecideMeans(s);
    case GetAnswer(a, created) =>
      match a
      case Failed =>
      case Proxied(_) =>
      case SsoDecision(_, _) =>
      case StoredSession(_) =>
      case Timeout(_, _) =>
      case UserType(_, _) =>
      case Saved(_) =>
  }

  lemma {:induction false} UserTypeIsTold(s: State, run: seq<Step>, t: State)
    requires Tidy(s) && Reaches(s, run, t) && PastUserType(t)
    ensures Told(run, t.userType) || (PastUserType(s) && t.userType == s.userType)
    decreases |run|
  {
    if run != [] {
      var s1 := Next(s, run[0]);
      match run[0] {
        case RunPass(created) => PassKeepsTidy(s, created);
        case GetAnswer(a, created) => ReplyKeepsTidy(s, a, created);
      }
      hide Next, Tidy, PastUserType;
      UserTypeIsTold(s1, run[1..], t);
      if Told(run[1..], t.userType) {
        var i :| 0 <= i < |run[1..]| && run[1..][i].GetAnswer? && run[1..][i].answer == UserType(true, t.userType);
        assert run[i + 1] == run[1..][i];
      } else {
        StepToUserType(s, run[0]);
      }
    }
  }

  /** A call that needs a session and goes on leaves checked, error and the count as a new context
      has them, unless single sign-on accepted the client: then the count stays at 5. The user's type
      is the one that the database told, or, after single sign-on, the 0 of a context that never asked. */
  lemma LeavesContextTidy(r: Request, run: seq<Step>, s: State)
    requires Reaches(Start(r), run, s) && s.phase.Proceeds? && NeedsSession(r)
    ensures s.count == if s.trusted then 5 else 0
    ensures !s.checked && !s.error
    ensures if s.trusted then s.userType == 0 else Told(run, s.userType)
  {
    RunKeepsTidy(Start(r), run, s);
    RunKeeps(Start(r), run, s);
    if !s.trusted {
      UserTypeIsTold(Start(r), run, s);
    }
  }

  // ---- When a call goes on ----

  /** A step of a run in which every query can be created and finds its row, and single sign-on is
      disabled or rejects the client without an error. */
  predicate Fair(t: Step) {
    match t
    case RunPass(created) => created
    case GetAnswer(a, created) =>
      created && (match a
                  case Failed => false
                  case Proxied(row) => row
                  case SsoDecision(sso, _) => sso.Disabled? || sso == Rejected(false)
                  case StoredSession(_) => true
                  case Timeout(_, _) => true
                  case UserType(row, _) => row
                  case Saved(affected) => affected)
  }

  ghost predicate AllFair(run: seq<Step>) {
    forall i :: 0 <= i < |run| ==> Fair(run[i])
  }

  predicate Final(s: State) { s.phase.Proceeds? || s.phase.Refused? }

  /** A pass, and the answer to what it asked. */
  lemma OneRound(s: State, run: seq<Step>, t: State)
    requires s.phase.Ready? && Final(t) && Reaches(s, run, t) && AllFair(run)
    ensures run != [] && run[0] == RunPass(true)
    ensures var p := Pass(s, true);
            if p.phase.Waiting? then
              && |run| >= 2 && run[1].GetAnswer? && run[1].created && Fair(run[1]) && Answers(run[1].answer, p.phase.question)
              && Reaches(Reply(p, run[1].answer, true), run[2..], t) && AllFair(run[2..])
            else Final(p) ==> run == [RunPass(true)] && t == p
  {
    hide Decide, Checked;
    assert Fair(run[0]) && Reaches(Pass(s, true), run[1..], t);
    if Pass(s, true).phase.Waiting? {
      assert run[1..] != [] && run[1..][0] == run[1] && run[1..][1..] == run[2..];
    }
  }

  /** The minutes of the setting, in seconds, or a quarter of an hour. */
  function Limit(configured: Option<Option<int>>): int {
    if configured.Some? && configured.value.Some? then 60 * configured.value.value else 900
  }

  /** The stored session is authenticated and no older than the limit. */
  predicate Current(session: Option<(bool, int)>, configured: Option<Option<int>>, now: int) {
    session.Some? && session.value.0 && now - session.value.1 <= Limit(configured)
  }

  /** Between the rounds: nothing is wrong, and the call is this far. */
  predicate Along(s: State, r: Request, host: bool, counted: bool, id: bool, checked: bool) {
    && s.phase.Ready? && s.request == r && !s.error
    && s.clientHost == host && (s.count > 0) == counted && s.sessionId == id && s.checked == checked
  }

  lemma FirstRounds(r: Request, run: seq<Step>, t: State) returns (s: State)
    requires Final(t) && Reaches(Start(r), run, t) && AllFair(run)
    ensures |run| >= 2 && Along(s, r, true, false, false, false) && !s.authenticated
    ensures Reaches(s, run[2..], t) && AllFair(run[2..])
  {
    OneRound(Start(r), run, t);
    s := Reply(Pass(Start(r), true), run[1].answer, true);
  }

  lemma SsoRound(s: State, run: seq<Step>, t: State) returns (u: State)
    requires Final(t) && Reaches(s, run, t) && AllFair(run) && Along(s, s.request, true, false, false, false)
    requires s.request.cookieValid || !SessionOptional(s.request)
    ensures |run| >= 2 && Along(u, s.request, true, true, false, false) && u.authenticated == s.authenticated
    ensures Reaches(u, run[2..], t) && AllFair(run[2..])
  {
    OneRound(s, run, t);
    u := Reply(Pass(s, true), run[1].answer, true);
  }

  lemma SessionRound(s: State, run: seq<Step>, t: State) returns (u: State)
    requires Final(t) && Reaches(s, run, t) && AllFair(run) && Along(s, s.request, true, true, false, false)
    requires s.request.cookieValid && !s.authenticated
    ensures |run| >= 2 && run[1].GetAnswer? && run[1].answer.StoredSession? && Along(u, s.request, true, true, true, false)
    ensures var session := run[1].answer.session;
            && (u.authenticated <==> session.Some? && session.value.0)
            && (u.authenticated ==> u.timestamp == session.value.1)
    ensures Reaches(u, run[2..], t) && AllFair(run[2..])
  {
    OneRound(s, run, t);
    u := Reply(Pass(s, true), run[1].answer, true);
  }

  lemma TimeoutRound(s: State, run: seq<Step>, t: State) returns (u: State)
    requires Final(t) && Reaches(s, run, t) && AllFair(run) && Along(s, s.request, true, true, true, false)
    requires s.request.cookieValid
    ensures |run| >= 2 && run[1].GetAnswer? && run[1].answer.Timeout? && Along(u, s.request, true, true, true, true)
    ensures u.authenticated == s.authenticated
    ensures u.status == ValidSession <==>
              s.authenticated && run[1].answer.now - s.timestamp <= Limit(run[1].answer.configured)
    ensures Reaches(u, run[2..], t) && AllFair(run[2..])
  {
    OneRound(s, run, t);
    u := Reply(Pass(s, true), run[1].answer, true);
  }

  /** The last pass: whether the call goes on at once, asks for the user's type and goes on, or is refused. */
  lemma LastRound(s: State, run: seq<Step>, t: State)
    requires Final(t) && Reaches(s, run, t) && AllFair(run) && Along(s, s.request, true, true, true, true)
    requires s.request.cookieValid
    ensures t.phase.Proceeds? <==>
              || s.request.procedure.Login? || s.request.procedure.Hello? || s.request.get
              || (s.request.procedure.Logout? && s.authenticated) || s.status == ValidSession
  {
    OneRound(s, run, t);
    var p := Pass(s, true);
    if p.phase.Waiting? {
      assert p.phase == Waiting(AskUserType);
      var q := Reply(p, run[1].answer, true);
      assert q.phase == Waiting(SaveKnown);
      SavedLast(q, run[2..], t);
    }
  }

  /** The session is saved, and that is all. */
  lemma SavedLast(s: State, run: seq<Step>, t: State)
    requires s.phase == Waiting(SaveKnown) || s.phase == Waiting(SaveNew)
    requires Final(t) && Reaches(s, run, t) && AllFair(run)
    ensures t.phase.Proceeds?
  {
    assert run != [] && Fair(run[0]);
    var u := Next(s, run[0]);
    assert u.phase.Proceeds? && Reaches(u, run[1..], t);
    FinalStays(u, run[1..], t);
  }

  lemma FinalStays(s: State, run: seq<Step>, t: State)
    requires Final(s) && Reaches(s, run, t)
    ensures t == s && run == []
  {
  }

  /** A call that has not come to its end goes on by a fair step. */
  lemma FairStepExists(s: State) returns (t: Step)
    requires !Final(s)
    ensures Enabled(s, t) && Fair(t)
  {
    if s.phase.Ready? {
      t := RunPass(true);
    } else {
      var a := match s.phase.question
        case AskProxied => Proxied(true)
        case AskSso => SsoDecision(Disabled, 0)
        case AskSession => StoredSession(None)
        case AskTimeout => Timeout(None, 0)
        case AskUserType => UserType(true, 0)
        case SaveNew => Saved(true)
        case SaveKnown => Saved(true);
      t := GetAnswer(a, true);
    }
  }

  /** A call with a valid cookie, in a run without failures: it goes on if and only if it is a login,
      a hello or a plain GET, a logout of an authenticated session, or the stored session, which is
      the third answer, is authenticated and no older than the timeout, which is the fourth. */
  lemma VerdictIsExact(r: Request, run: seq<Step>, s: State)
    requires r.cookieValid && Reaches(Start(r), run, s) && Final(s) && AllFair(run)
    ensures |run| >= 9 && run[5].GetAnswer? && run[5].answer.StoredSession? && run[7].GetAnswer? && run[7].answer.Timeout?
    ensures var (session, timeout) := (run[5].answer.session, run[7].answer);
            s.phase.Proceeds? <==>
              || r.procedure.Login? || r.procedure.Hello? || r.get
              || (r.procedure.Logout? && session.Some? && session.value.0)
              || Current(session, timeout.configured, timeout.now)
  {
    hide Decide, Pass, Reply, Reaches, AllFair, Along;
    var s1 := FirstRounds(r, run, s);
    var run1 := run[2..];
    assert s1.request == r by { AlongRequest(s1, r, true, false, false, false); }
    var s2 := SsoRound(s1, run1, s);
    var run2 := run1[2..];
    AlongRequest(s2, r, true, true, false, false);
    var s3 := SessionRound(s2, run2, s);
    var run3 := run2[2..];
    AlongRequest(s3, r, true, true, true, false);
    var s4 := TimeoutRound(s3, run3, s);
    AlongRequest(s4, r, true, true, true, true);
    LastRound(s4, run3[2..], s);
  }

  lemma AlongRequest(s: State, r: Request, host: bool, counted: bool, id: bool, checked: bool)
    requires Along(s, r, host, counted, id, checked)
    ensures s.request == r && s.phase.Ready?
  {
  }

  /** Single sign-on has let the client in exactly when it was asked and accepted, and then the call
      goes on; and a query that fails in the database refuses it. */
  lemma {:induction false} SingleSignOnDecides(s: State, run: seq<Step>, t: State)
    requires Reaches(s, run, t) && !s.trusted
    ensures t.trusted <==> exists k :: 0 <= k < |run| && Accepts(run[k])
    ensures t.trusted ==> t.phase.Proceeds?
    ensures (exists k :: 0 <= k < |run| && IsFailure(run[k])) ==> t.phase.Refused?
    decreases |run|
  {
    if run != [] {
      var s1 := Next(s, run[0]);
      assert run == [run[0]] + run[1..];
      if Accepts(run[0]) || IsFailure(run[0]) {
        EndsAtOnce(s, run[0]);
        hide Next;
        FinalStays(s1, run[1..], t);
      } else {
        NotTrusted(s, run[0]);
        hide Next, Accepts, IsFailure;
        SingleSignOnDecides(s1, run[1..], t);
      }
    }
  }

  predicate Accepts(t: Step) {
    t.GetAnswer? && t.answer.SsoDecision? && t.answer.sso == Accepted
  }

  predicate IsFailure(t: Step) {
    t.GetAnswer? && t.answer.Failed?
  }

  lemma EndsAtOnce(s: State, t: Step)
    requires Enabled(s, t) && (Accepts(t) || IsFailure(t)) && !s.trusted
    ensures if Accepts(t) then Next(s, t).phase.Proceeds? && Next(s, t).trusted
            else Next(s, t).phase.Refused? && !Next(s, t).trusted
  {
  }

  lemma NotTrusted(s: State, t: Step)
    requires Enabled(s, t) && !Accepts(t) && !s.trusted
    ensures !Next(s, t).trusted
  {
    hide Decide, Checked;
    if t.GetAnswer? {
      match t.answer
      case Failed =>
      case Proxied(_) =>
      case SsoDecision(_, _) =>
      case StoredSession(_) =>
      case Timeout(configured, now) => CheckedKeepsTrust(s, configured, now);
      case UserType(_, _) =>
      case Saved(_) =>
    } else {
      PassKeepsTrust(s, t.created);
    }
  }

  lemma CheckedKeepsTrust(s: State, configured: Option<Option<int>>, now: int)
    ensures Checked(s, configured, now).trusted == s.trusted
  {
  }

  lemma PassKeepsTrust(s: State, created: bool)
    ensures Pass(s, created).trusted == s.trusted
  {
    hide Decide;
  }

  /** A call without a valid cookie: it goes on if and only if it can do without a session. */
  lemma VerdictWithoutCookie(r: Request, run: seq<Step>, s: State)
    requires !r.cookieValid && Reaches(Start(r), run, s) && Final(s) && AllFair(run)
    ensures s.phase.Proceeds? <==> !r.content || r.procedure.Login? || r.procedure.Hello?
  {
    var s1 := FirstRounds(r, run, s);
    if SessionOptional(r) {
      OneRoundSaves(s1, run[2..], s);
    } else {
      var s2 := SsoRound(s1, run[2..], s);
      OneRound(s2, run[2..][2..], s);
    }
  }

  lemma OneRoundSaves(s: State, run: seq<Step>, t: State)
    requires Final(t) && Reaches(s, run, t) && AllFair(run) && Along(s, s.request, true, false, false, false)
    requires !s.request.cookieValid && SessionOptional(s.request)
    ensures t.phase.Proceeds?
  {
    var p := Pass(s, true);
    assert Fair(run[0]) && run[0] == RunPass(true) && p.phase == Waiting(SaveNew);
    assert Reaches(p, run[1..], t) && AllFair(run[1..]);
    SavedLast(p, run[1..], t);
  }

  // ---- The same, in place ----

  class Session {
    const request: Request
    var error: bool
    var count: nat
    var clientHost: bool
    var sessionId: bool
    var checked: bool
    var authenticated: bool
    var timestamp: int
    var status: Status
    var checkedAt: int
    var timeout: int
    var userType: nat
    var trusted: bool
    var phase: Phase
    var passes: nat

    function View(): State
      reads this
    {
      State(request, error, count, clientHost, sessionId, checked, authenticated, timestamp, status, checkedAt, timeout,
            userType, trusted, phase, passes)
    }

    constructor (request: Request)
      ensures View() == Start(request)
    {
      this.request := request;
      error, count, clientHost, sessionId, checked, authenticated := false, 0, false, false, false, false;
      timestamp, status, checkedAt, timeout, userType, trusted, phase, passes := 0, Unchecked, 0, 0, 0, false, Ready, 0;
    }

    /** A query, its callback, and CTX_RETURN. */
    method Await(created: bool, q: Question)
      modifies this`error, this`phase
      ensures if created && !old(error) then error == old(error) && phase == Waiting(q) else error && phase == Refused
    {
      if created && !error {
        phase := Waiting(q);
      } else {
        error := true;
        phase := Refused;
      }
    }

    /** The branches of session_pre_call, in its order. */
    method Branch() returns (d: Decision)
      ensures d == Decide(View())
    {
      if !clientHost {
        return Query(AskProxied);
      }
      if !request.cookieValid {
        if request.content && !request.procedure.Login? && !request.procedure.Hello? {
          return if count == 0 then Query(AskSso) else Reject;
        }
        return Query(SaveNew);
      }
      if !checked {
        if count == 0 {
          return Query(AskSso);
        }
        return if !sessionId then Query(AskSession) else Query(AskTimeout);
      }
      var fallthrough, forget := false, false;
      if request.procedure.Login? || request.procedure.Hello? {
        fallthrough := true;
        forget := true;
      } else if authenticated && request.procedure.Logout? {
        fallthrough := true;
      } else if request.get {
        return Go(false);
      }
      if fallthrough {
        return Go(forget);
      }
      return if status == ValidSession then Query(AskUserType) else Reject;
    }

    /** session_pre_call: one pass. */
    method PreCall(created: bool)
      requires phase == Ready
      modifies this
      ensures View() == Pass(old(View()), created)
    {
      var d := Branch();
      hide Decide;
      passes := passes + 1;
      match d
      case Query(q) =>
        if q.AskSession? || q.SaveNew? {
          sessionId := true;
        }
        Await(created, q);
      case Reject =>
        error := true;
        phase := Refused;
      case Go(forget) =>
        if forget {
          authenticated := false;
        }
        error := false;
        phase := Proceeds;
    }

    /** session_checker, and session_check_cb behind it */
    method Checker(configured: Option<Option<int>>, now: int)
      requires phase == Waiting(AskTimeout)
      modifies this
      ensures View() == Reply(old(View()), Timeout(configured, now), true)
    {
      if configured.None? || error {
        timeout := DEFAULT_SESSION_TIMEOUT * 60;
        error := false;
      } else {
        var t := DEFAULT_SESSION_TIMEOUT;
        if configured.value.Some? {
          t := configured.value.value;
        }
        timeout := t * 60;
      }
      checked := true;
      checkedAt := now;
      if !authenticated {
        status := NotAuthorized;
      } else if now - timestamp <= timeout {
        status := ValidSession;
      } else {
        status := ExpiredSession;
      }
      phase := Ready;
    }
  }
}
