/** The asynchronous call engine: one context's callback chain, the handlers of an answered
    query, and the two event handlers that reply to the client, as functions on context values. */
module Engine {
  import opened Options
  import opened VmLists

  datatype Error =
    | NoError | DbQuery | DbMulti | DbFail | UnknownResource | EntityAlreadyExists
    | NotAuthorized | InvalidParameter | NodeUnconfigured | NodeDisabled | OtherError

  /** An entry of the chain: NULL, one of the first nine callbacks of functions_cb.c, or any other
      callback, which pops the head (guarded: only for a live context) and goes on with code of its own. */
  datatype Cb =
    | Placeholder | BoolJob | IntJob | PointerJob
    | IntRewind | BoolRewind | AuthRewind | PointerReturn | IntReturn | Custom(guarded: bool)

  type Qid = nat

  /** The handlers that QID_CB_ADD registers for a query: those of zrpcdb.x, the three of
      zrpcdb_vm.c, and the two of zrpcdb_node.c. */
  datatype Handler =
    | ExecHandler | ExecExistsHandler | PtrHandler | IntHandler | BoolHandler
    | VmHandler | ListHandler(kind: Kind) | NodeEnabledHandler | NodeConfiguredHandler

  /** What comes back for a query; value says whether the converted result or the insert id is not 0,
      and list is the result of a query for a list. */
  datatype Answer = Failed | Rows(rows: nat, affected: nat, value: bool, list: seq<Item>)

  /** What else the handlers of zrpcdb_vm.c and zrpcdb_node.c depend on: whether the VM's other list
      is there already, and whether the queries that they make can be created. */
  datatype Env = Env(complete: bool, first: bool, second: bool)

  const NOTHING := Env(false, false, false)

  /** The server's content object: gone, without a return-value converter (pre-call), or a method's. */
  datatype Content = Gone | PreCall | Method

  /** Calls into the server, in order; reply marks the resumes that answer the client. */
  datatype Action = Rewind | Fault(error: Error) | Resume(ok: bool, reply: bool)

  datatype Event = ErrorEvent | ResultEvent

  /** The one thing an answered query makes happen: the head of the chain is called, a placeholder
      is popped, an event is posted, or a handler keeps the result to itself and goes on asking. */
  datatype Effect = Called(cb: Cb) | Popped | Posted(event: Event) | Kept

  /** The fields of Zentific_Ctx that the engine uses, the jobs it queued and its calls into the server. */
  datatype Ctx = Ctx(
    cbs: seq<Cb>, error: Error, count: int, state: bool, retSet: bool, dead: bool,
    checked: bool, auth: bool, param: bool, content: Content, fault: bool,
    crashed: bool, jobs: nat, log: seq<Action>)
  {
    /** CTX_CB_ADD */
    function Add(cb: Cb): Ctx {
      if !dead && error == NoError then this.(cbs := cbs + [cb]) else this
    }

    /** The calls that the RESUME macro makes: a context error becomes the fault first. */
    function ResumeLog(): seq<Action> {
      if dead then []
      else if content == Gone then [Resume(true, false)]
      else if error != NoError && !fault then [Fault(error), Resume(false, false)]
      else [Resume(!fault, false)]
    }

    predicate FaultAfterResume() {
      fault || (!dead && content != Gone && error != NoError)
    }
  }

  /** The bodies of functions_cb.c, run as the head of the chain; ret is the argument the handler passes. */
  function Run(c: Ctx, cb: Cb, ret: bool): Ctx
    requires c.cbs != []
  {
    match cb
    case Placeholder => c.(crashed := true)
    case BoolJob =>
      if c.dead then c.(cbs := c.cbs[1..])
      else c.(cbs := c.cbs[1..], count := c.count + 1, jobs := c.jobs + 1)
    case IntJob =>
      if c.dead then c.(cbs := c.cbs[1..])
      else c.(cbs := c.cbs[1..], count := c.count + 1, jobs := c.jobs + 1, param := ret || c.param)
    case PointerJob =>
      if c.dead then c
      else c.(cbs := c.cbs[1..], count := c.count + 1, jobs := c.jobs + 1, param := ret || c.param)
    case IntRewind =>
      c.(cbs := c.cbs[1..], count := c.count + 1, fault := c.FaultAfterResume(), log := c.log + [Rewind] + c.ResumeLog())
    case BoolRewind =>
      if c.dead then c.(cbs := c.cbs[1..])
      else c.(cbs := c.cbs[1..], count := c.count + 1, log := c.log + [Rewind, Resume(true, false)])
    case AuthRewind =>
      if c.dead then c.(cbs := c.cbs[1..])
      else c.(cbs := c.cbs[1..], count := 0, auth := ret && c.error == NoError, log := c.log + [Rewind, Resume(true, false)])
    case PointerReturn =>
      if c.dead then c
      else c.(cbs := c.cbs[1..], count := c.count + 1, param := ret || c.param, log := c.log + [Rewind, Resume(true, false)])
    case IntReturn =>
      if c.dead then c
      else c.(cbs := c.cbs[1..], count := c.count + 1, param := true, log := c.log + [Rewind, Resume(true, false)])
    case Custom(guarded) =>
      if guarded && c.dead then c else c.(cbs := c.cbs[1..])
  }

  /** NEXT_CB with a callback left in the chain. */
  function RunNext(c: Ctx, ret: bool): Ctx
    requires c.cbs != []
  {
    if c.dead then c else Run(c, c.cbs[0], ret)
  }

  /** The tail of a handler: the head of the chain, a placeholder, or a result event. */
  function Deliver(c: Ctx, ok: bool, err: bool): (r: (Ctx, Effect))
    ensures r.1 != Kept && (r.1.Posted? ==> r.1 == Posted(ResultEvent))
  {
    if c.cbs == [] then (c, Posted(ResultEvent))
    else if c.cbs[0] == Placeholder then (c.(cbs := c.cbs[1..]), Popped)
    else (Run(c, c.cbs[0], if c.error == NoError then ok else err), Called(c.cbs[0]))
  }

  /** The check on the result that the handlers of zrpcdb.x make first: an empty one is an error. */
  function Check(c: Ctx, h: Handler, ans: Answer): Ctx
    requires ans.Rows?
  {
    var empty := if h == ExecHandler then ans.affected == 0 else ans.rows == 0;
    if empty && c.error == NoError
    then c.(error := if h == ExecExistsHandler then EntityAlreadyExists else UnknownResource)
    else c
  }

  /** zrpcdb_vm_stats: without a row, or after an error, the head is told that there is no VM;
      otherwise the two list queries are made. */
  function HandleVm(c: Ctx, ans: Answer, env: Env): (Ctx, Effect)
    requires ans.Rows?
  {
    var d := if ans.rows == 0 then c.(error := UnknownResource) else c;
    if d.error != NoError then Deliver(d, false, false)
    else (if env.first && env.second then d else d.(error := DbFail), Kept)
  }

  /** zrpcdb_vm_disks and zrpcdb_vm_vifs: the list that comes second hands the VM on. */
  function HandleList(c: Ctx, env: Env): (Ctx, Effect) {
    if env.complete then Deliver(c, true, true) else (c, Kept)
  }

  /** zrpcdb_node_cb_enc */
  function HandleNodeEnabled(c: Ctx, ans: Answer, env: Env): (Ctx, Effect)
    requires ans.Rows?
  {
    if ans.rows == 0 then (c.(error := UnknownResource), Posted(ErrorEvent))
    else if !ans.value then (c.(error := NodeDisabled), Posted(ErrorEvent))
    else if !env.first then (c.(state := true, error := DbFail), Posted(ErrorEvent))
    else (c.(state := true), Kept)
  }

  /** zrpcdb_node_cb_conf: it calls the head without looking for a placeholder. */
  function HandleNodeConfigured(c: Ctx, ans: Answer): (Ctx, Effect)
    requires ans.Rows?
  {
    if ans.rows == 0 then (c.(error := NodeUnconfigured), Posted(ErrorEvent))
    else if c.cbs != [] then (Run(c.(state := true), c.cbs[0], true), Called(c.cbs[0]))
    else (c, Posted(ResultEvent))
  }

  /** What a query's handler does with its answer. */
  function Handle(c: Ctx, h: Handler, ans: Answer, env: Env): (Ctx, Effect)
    requires ans.Rows?
  {
    match h
    case VmHandler => HandleVm(c, ans, env)
    case ListHandler(_) => HandleList(c, env)
    case NodeEnabledHandler => HandleNodeEnabled(c, ans, env)
    case NodeConfiguredHandler => HandleNodeConfigured(c, ans)
    case IntHandler => Deliver(Check(c, h, ans), ans.value, true)
    case PtrHandler => Deliver(Check(c, h, ans), ans.value, false)
    case _ => Deliver(Check(c, h, ans), true, false)
  }

  /** An answer that event_cb turns into an error event itself. */
  predicate Bad(c: Ctx, typed: bool, ans: Answer) {
    ans.Failed? || (typed && c.state && ans.rows > 1)
  }

  /** What a good answer does: its handler, the head of the chain, or a result event; state is what
      the context's state was before the answer. */
  function Settle(c: Ctx, h: Option<Handler>, ans: Answer, env: Env, state: bool): (Ctx, Effect)
    requires ans.Rows?
  {
    if h.Some? then Handle(c, h.value, ans, env)
    else if c.cbs != [] then (Run(c, c.cbs[0], ans.value), Called(c.cbs[0]))
    else (c.(state := state), Posted(ResultEvent))
  }

  /** event_cb, for a context, the tables' entries for the query, and its answer. */
  function Dispatch(c: Ctx, typed: bool, h: Option<Handler>, ans: Answer, env: Env): (Ctx, Effect) {
    if ans.Failed? then (c.(state := false, error := DbQuery), Posted(ErrorEvent))
    else if Bad(c, typed, ans) then (c.(error := DbMulti), Posted(ErrorEvent))
    else Settle(c.(state := false), h, ans, env, c.state)
  }

  /** The queries that a handler makes when it keeps a result, with their own handlers. */
  function Follow(h: Option<Handler>, effect: Effect, first: Option<Qid>, second: Option<Qid>): (m: map<Qid, Handler>)
    ensures effect != Kept || (h != Some(VmHandler) && h != Some(NodeEnabledHandler)) ==> m == map[]
    ensures forall q :: q in m ==> m[q].ListHandler? == (h == Some(VmHandler))
  {
    if effect != Kept then map[]
    else if h == Some(VmHandler) then Made(first, ListHandler(Disks)) + Made(second, ListHandler(Vifs))
    else if h == Some(NodeEnabledHandler) then Made(first, NodeConfiguredHandler)
    else map[]
  }

  function Made(qid: Option<Qid>, h: Handler): map<Qid, Handler> {
    if qid.Some? then map[qid.value := h] else map[]
  }

  /** error_handler */
  function OnError(c: Ctx): Ctx {
    if c.dead then c
    else c.(cbs := [], param := false, fault := true, dead := true, log := c.log + [Fault(c.error), Resume(false, true)])
  }

  /** A context error becomes the client's fault, unless the method has set its value. */
  function Faults(c: Ctx): seq<Action> {
    if c.content != Gone && !c.retSet && c.error != NoError then [Fault(c.error)] else []
  }

  /** result_handler */
  function OnResult(c: Ctx): Ctx {
    var fault := c.fault || Faults(c) != [];
    if c.dead then c
    else if c.content == PreCall && !c.retSet
    then c.(fault := fault, log := c.log + Faults(c) + [Resume(c.error == NoError, false)])
    else c.(fault := fault, dead := true, log := c.log + Faults(c) + [Resume(true, true)])
  }

  function OnEvent(c: Ctx, e: Event): Ctx {
    if e == ErrorEvent then OnError(c) else OnResult(c)
  }
}
