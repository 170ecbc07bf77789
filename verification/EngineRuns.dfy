/** Runs of the call engine: many contexts, queries answered in any order, events handled in the
    order they were posted, and the code of the contexts in between. */
module EngineRuns {
  import opened Options
  import opened VmLists
  import opened Engine

  type Id = nat

  /** What the answer of one query did to the context that had asked. */
  datatype Reaction = Reaction(qid: Qid, id: Id, effect: Effect)

  /** The contexts, the unanswered queries with their contexts, the tables, the VMs whose lists are
      being fetched (each under the query that found it), and the event queue. issued, handled,
      history and done only remember what happened: for which context each query was issued, which
      were registered with a handler, what the answers did, and the events that were handled. */
  datatype World = World(
    ctxs: map<Id, Ctx>, outstanding: map<Qid, Id>, typeCbs: set<Qid>, dbCbs: map<Qid, Handler>,
    params: map<Qid, Qid>, vms: map<Qid, Assembly>, queue: seq<(Id, Event)>,
    issued: map<Qid, Id>, handled: set<Qid>, history: seq<Reaction>, done: seq<(Id, Event)>)

  /** first and second are the ids of the queries that the answer's handler makes, if they can be
      created. NextCb is a callback that hands on to the next one. */
  datatype Step =
    | Issue(qid: Qid, id: Id, typed: bool, handler: Option<Handler>)
    | AnswerQuery(qid: Qid, answer: Answer, first: Option<Qid>, second: Option<Qid>)
    | HandleEvent
    | AddCb(id: Id, cb: Cb)
    | NextCb(id: Id, ret: bool)
    | Local(id: Id, next: Ctx)

  predicate IsReply(a: Action) { a.Resume? && a.reply }

  /** What other code may do to a context: it cannot touch the chain but through CTX_CB_ADD, it
      does not touch the latch, and while the latch is open it may resume, but does not reply. */
  ghost predicate LocalChange(c: Ctx, d: Ctx) {
    && d.cbs == c.cbs && d.dead == c.dead && d.crashed == c.crashed
    && c.log <= d.log && (c.dead ==> d.log == c.log)
    && forall i :: |c.log| <= i < |d.log| ==> !IsReply(d.log[i])
  }

  /** The handlers that are registered where a query is made by a method; the others are registered
      only by handlers. */
  predicate Direct(h: Option<Handler>) {
    h.Some? ==> !h.value.ListHandler? && !h.value.NodeConfiguredHandler?
  }

  predicate Unused(w: World, first: Option<Qid>, second: Option<Qid>) {
    && (first.Some? ==> first.value !in w.issued)
    && (second.Some? ==> second.value !in w.issued)
    && (first.Some? && second.Some? ==> first != second)
  }

  ghost predicate Enabled(w: World, s: Step) {
    match s
    case Issue(qid, id, _, h) => qid !in w.issued && id in w.ctxs && Direct(h)
    case AnswerQuery(qid, _, first, second) =>
      qid in w.outstanding && w.outstanding[qid] in w.ctxs && Unused(w, first, second)
    case HandleEvent => w.queue != [] && w.queue[0].0 in w.ctxs
    case AddCb(id, _) => id in w.ctxs
    case NextCb(id, _) => id in w.ctxs && w.ctxs[id].cbs != []
    case Local(id, d) => id in w.ctxs && LocalChange(w.ctxs[id], d)
  }

  function HandlerOf(w: World, qid: Qid): Option<Handler> {
    if qid in w.dbCbs then Some(w.dbCbs[qid]) else None
  }

  /** The query is for a list of a VM that has been found. */
  predicate ForList(w: World, qid: Qid) {
    qid in w.dbCbs && w.dbCbs[qid].ListHandler? && qid in w.params && w.params[qid] in w.vms
  }

  function EnvOf(w: World, qid: Qid, first: Option<Qid>, second: Option<Qid>): Env {
    Env(ForList(w, qid) && w.vms[w.params[qid]].Other(w.dbCbs[qid].kind) != Null, first.Some?, second.Some?)
  }

  function React(w: World, qid: Qid, ans: Answer, first: Option<Qid>, second: Option<Qid>): (Ctx, Effect)
    requires qid in w.outstanding && w.outstanding[qid] in w.ctxs
  {
    Dispatch(w.ctxs[w.outstanding[qid]], qid in w.typeCbs, HandlerOf(w, qid), ans, EnvOf(w, qid, first, second))
  }

  /** The answer is good and brings a list. */
  predicate Brings(w: World, qid: Qid, ans: Answer)
    requires qid in w.outstanding && w.outstanding[qid] in w.ctxs
  {
    ForList(w, qid) && !Bad(w.ctxs[w.outstanding[qid]], qid in w.typeCbs, ans)
  }

  /** The VMs after an answer: a list arrives, or a VM has been found. */
  function Fetched(w: World, qid: Qid, ans: Answer, effect: Effect): map<Qid, Assembly>
    requires qid in w.outstanding && w.outstanding[qid] in w.ctxs
  {
    if Brings(w, qid, ans) then w.vms[w.params[qid] := Arrive(w.vms[w.params[qid]], w.dbCbs[qid].kind, ans.list)]
    else if HandlerOf(w, qid) == Some(VmHandler) && effect == Kept then w.vms[qid := Begun()]
    else w.vms
  }

  /** The answered query is gone from the tables. */
  function Close(w: World, qid: Qid, ans: Answer, c: Ctx, effect: Effect): World
    requires qid in w.outstanding && w.outstanding[qid] in w.ctxs
  {
    var id := w.outstanding[qid];
    w.(ctxs := w.ctxs[id := c], outstanding := w.outstanding - {qid}, dbCbs := w.dbCbs - {qid},
       params := if Brings(w, qid, ans) then w.params - {qid} else w.params,
       vms := Fetched(w, qid, ans, effect),
       queue := w.queue + if effect.Posted? then [(id, effect.event)] else [],
       history := w.history + [Reaction(qid, id, effect)])
  }

  /** A handler's own queries are entered, those for lists with the VM. */
  function Open(w: World, id: Id, more: map<Qid, Handler>, vm: Qid): World {
    var owners := map q | q in more :: id;
    w.(outstanding := w.outstanding + owners, issued := w.issued + owners,
       typeCbs := w.typeCbs + more.Keys, dbCbs := w.dbCbs + more, handled := w.handled + more.Keys,
       params := w.params + Named(more, vm))
  }

  /** The parameter of the queries for lists. */
  function Named(more: map<Qid, Handler>, vm: Qid): map<Qid, Qid> {
    map q | q in more && more[q].ListHandler? :: vm
  }

  function EventCb(w: World, qid: Qid, ans: Answer, first: Option<Qid>, second: Option<Qid>): World
    requires qid in w.outstanding && w.outstanding[qid] in w.ctxs
  {
    var (c, effect) := React(w, qid, ans, first, second);
    Open(Close(w, qid, ans, c, effect), w.outstanding[qid], Follow(HandlerOf(w, qid), effect, first, second), qid)
  }

  function Next(w: World, s: Step): World
    requires Enabled(w, s)
  {
    match s
    case Issue(qid, id, typed, h) =>
      w.(outstanding := w.outstanding[qid := id], issued := w.issued[qid := id],
         typeCbs := if typed then w.typeCbs + {qid} else w.typeCbs,
         dbCbs := if h.Some? then w.dbCbs[qid := h.value] else w.dbCbs,
         handled := if h.Some? then w.handled + {qid} else w.handled)
    case AnswerQuery(qid, ans, first, second) => EventCb(w, qid, ans, first, second)
    case HandleEvent =>
      var (id, e) := w.queue[0];
      w.(ctxs := w.ctxs[id := OnEvent(w.ctxs[id], e)], queue := w.queue[1..], done := w.done + [w.queue[0]])
    case AddCb(id, cb) => w.(ctxs := w.ctxs[id := w.ctxs[id].Add(cb)])
    case NextCb(id, ret) => w.(ctxs := w.ctxs[id := RunNext(w.ctxs[id], ret)])
    case Local(id, d) => w.(ctxs := w.ctxs[id := d])
  }

  /** w' is reached from w by the steps of the run. */
  ghost predicate Reaches(w: World, run: seq<Step>, w': World)
    decreases |run|
  {
    if run == [] then w == w'
    else Enabled(w, run[0]) && Reaches(Next(w, run[0]), run[1..], w')
  }

  ghost predicate Fresh(c: Ctx) {
    c.cbs == [] && c.log == [] && !c.dead
  }

  ghost predicate Initial(w: World) {
    && w.outstanding == map[] && w.typeCbs == {} && w.dbCbs == map[] && w.params == map[] && w.vms == map[]
    && w.queue == [] && w.issued == map[] && w.handled == {} && w.history == [] && w.done == []
    && forall id :: id in w.ctxs ==> Fresh(w.ctxs[id])
  }

  // ---- The tables ----

  /** Every query for a list has its VM, and no VM is named after a query that is still unanswered. */
  ghost predicate ListsOk(w: World) {
    && (forall q :: q in w.dbCbs && w.dbCbs[q].ListHandler? ==> ForList(w, q))
    && (forall v :: v in w.vms ==> v in w.issued && v !in w.outstanding)
  }

  ghost predicate TablesOk(w: World) {
    && (forall qid :: qid in w.dbCbs <==> qid in w.outstanding && qid in w.handled)
    && (forall qid :: qid in w.outstanding ==> qid in w.issued && w.outstanding[qid] == w.issued[qid])
    && w.typeCbs <= w.issued.Keys && w.handled <= w.issued.Keys
    && (forall qid :: qid in w.outstanding ==> w.outstanding[qid] in w.ctxs)
    && (forall i :: 0 <= i < |w.queue| ==> w.queue[i].0 in w.ctxs)
    && ListsOk(w)
  }

  /** The queries that have been answered. */
  ghost function AnsweredIn(history: seq<Reaction>): set<Qid> {
    set i | 0 <= i < |history| :: history[i].qid
  }

  /** The events that answers have posted, oldest first. */
  function PostedIn(history: seq<Reaction>): seq<(Id, Event)> {
    if history == [] then []
    else PostedIn(history[..|history| - 1]) + PostsOf(history[|history| - 1])
  }

  function PostsOf(r: Reaction): seq<(Id, Event)> {
    if r.effect.Posted? then [(r.id, r.effect.event)] else []
  }

  /** Every issued query is outstanding or has had its one effect, on the context it was issued for. */
  ghost predicate QueriesConserved(w: World) {
    && AnsweredIn(w.history) == w.issued.Keys - w.outstanding.Keys
    && (forall i, j :: 0 <= i < j < |w.history| ==> w.history[i].qid != w.history[j].qid)
    && (forall i :: 0 <= i < |w.history| ==>
          w.history[i].qid in w.issued && w.history[i].id == w.issued[w.history[i].qid])
  }

  /** Every posted event has been handled or is in the queue, in the order of posting. */
  ghost predicate EventsConserved(w: World) {
    PostedIn(w.history) == w.done + w.queue
  }

  ghost predicate Conserved(w: World) { QueriesConserved(w) && EventsConserved(w) }

  lemma FollowIsNew(w: World, h: Option<Handler>, effect: Effect, first: Option<Qid>, second: Option<Qid>)
    requires Unused(w, first, second)
    ensures forall q :: q in Follow(h, effect, first, second) ==> q !in w.issued
  {
  }

  lemma CloseKeepsTables(w: World, qid: Qid, ans: Answer, c: Ctx, effect: Effect)
    requires TablesOk(w) && qid in w.outstanding
    ensures var w1 := Close(w, qid, ans, c, effect);
            TablesOk(w1) && qid !in w1.outstanding && w1.issued == w.issued
  {
    hide Arrive;
  }

  lemma OpenKeepsTables(w: World, id: Id, more: map<Qid, Handler>, vm: Qid)
    requires TablesOk(w) && id in w.ctxs && forall q :: q in more ==> q !in w.issued
    requires vm in w.vms || forall q :: q in more ==> !more[q].ListHandler?
    ensures TablesOk(Open(w, id, more, vm))
  {
  }

  lemma AnswerTables(w: World, qid: Qid, ans: Answer, first: Option<Qid>, second: Option<Qid>)
    requires TablesOk(w) && Enabled(w, AnswerQuery(qid, ans, first, second))
    ensures TablesOk(EventCb(w, qid, ans, first, second))
  {
    var (c, effect) := React(w, qid, ans, first, second);
    FollowIsNew(w, HandlerOf(w, qid), effect, first, second);
    CloseKeepsTables(w, qid, ans, c, effect);
    hide Dispatch, Follow, TablesOk;
    OpenKeepsTables(Close(w, qid, ans, c, effect), w.outstanding[qid], Follow(HandlerOf(w, qid), effect, first, second), qid);
  }

  lemma IssueTables(w: World, qid: Qid, id: Id, typed: bool, h: Option<Handler>)
    requires TablesOk(w) && Enabled(w, Issue(qid, id, typed, h))
    ensures TablesOk(Next(w, Issue(qid, id, typed, h)))
  {
  }

  /** What an answer changes in the world. */
  lemma AnswerMoves(w: World, qid: Qid, ans: Answer, first: Option<Qid>, second: Option<Qid>)
    requires qid in w.outstanding && w.outstanding[qid] in w.ctxs
    ensures var ((c, effect), id, w1) := (React(w, qid, ans, first, second), w.outstanding[qid], EventCb(w, qid, ans, first, second));
            && w1.ctxs == w.ctxs[id := c] && w1.vms == Fetched(w, qid, ans, effect)
            && w1.queue == w.queue + (if effect.Posted? then [(id, effect.event)] else [])
            && w1.history == w.history + [Reaction(qid, id, effect)]
            && var more := Follow(HandlerOf(w, qid), effect, first, second);
            && w1.outstanding == w.outstanding - {qid} + (map q | q in more :: id)
            && w1.issued == w.issued + (map q | q in more :: id)
            && w1.typeCbs == w.typeCbs + more.Keys && w1.dbCbs == w.dbCbs - {qid} + more
            && w1.params == (if Brings(w, qid, ans) then w.params - {qid} else w.params) + Named(more, qid)
  {
    hide React, Fetched, Follow;
  }

  lemma TablesStep(w: World, s: Step)
    requires TablesOk(w) && Enabled(w, s)
    ensures TablesOk(Next(w, s))
  {
    match s
    case Issue(qid, id, typed, h) => IssueTables(w, qid, id, typed, h);
    case AnswerQuery(qid, ans, first, second) => AnswerTables(w, qid, ans, first, second);
    case _ => hide EventCb, OnEvent;
  }

  lemma AnsweredGrows(history: seq<Reaction>, r: Reaction)
    ensures AnsweredIn(history + [r]) == AnsweredIn(history) + {r.qid}
  {
    var more := history + [r];
    assert more[|history|] == r;
    assert forall i :: 0 <= i < |history| ==> more[i] == history[i];
  }

  lemma PostedGrows(history: seq<Reaction>, r: Reaction)
    ensures PostedIn(history + [r]) == PostedIn(history) + PostsOf(r)
  {
    assert (history + [r])[..|history|] == history;
  }

  lemma AnsweredHas(history: seq<Reaction>)
    ensures forall i :: 0 <= i < |history| ==> history[i].qid in AnsweredIn(history)
  {
  }

  lemma CloseConserves(w: World, qid: Qid, ans: Answer, c: Ctx, effect: Effect)
    requires TablesOk(w) && QueriesConserved(w) && qid in w.outstanding
    ensures QueriesConserved(Close(w, qid, ans, c, effect))
  {
    hide AnsweredIn, Fetched, ListsOk;
    AnsweredGrows(w.history, Reaction(qid, w.outstanding[qid], effect));
    AnsweredHas(w.history);
  }

  lemma OpenConserves(w: World, id: Id, more: map<Qid, Handler>, vm: Qid)
    requires QueriesConserved(w) && forall q :: q in more ==> q !in w.issued
    ensures QueriesConserved(Open(w, id, more, vm))
  {
    hide AnsweredIn;
  }

  lemma QueriesStep(w: World, s: Step)
    requires TablesOk(w) && QueriesConserved(w) && Enabled(w, s)
    ensures QueriesConserved(Next(w, s))
  {
    match s
    case AnswerQuery(qid, ans, first, second) =>
      var (c, effect) := React(w, qid, ans, first, second);
      FollowIsNew(w, HandlerOf(w, qid), effect, first, second);
      CloseConserves(w, qid, ans, c, effect);
      hide Dispatch, Follow, TablesOk, QueriesConserved;
      OpenConserves(Close(w, qid, ans, c, effect), w.outstanding[qid], Follow(HandlerOf(w, qid), effect, first, second), qid);
    case _ => hide Dispatch, OnEvent, AnsweredIn;
  }

  lemma EventsStep(w: World, s: Step)
    requires EventsConserved(w) && Enabled(w, s)
    ensures EventsConserved(Next(w, s))
  {
    hide React, OnEvent, PostedIn, Fetched;
    match s
    case AnswerQuery(qid, ans, first, second) =>
      PostedGrows(w.history, Reaction(qid, w.outstanding[qid], React(w, qid, ans, first, second).1));
    case HandleEvent => assert w.queue == [w.queue[0]] + w.queue[1..];
    case _ =>
  }

  /** In every reachable state the handler table lists exactly the unanswered queries that were
      registered with a handler; every query that is no longer outstanding has had exactly one
      effect (a head called, a placeholder popped, a result event or an error event) on the
      context that issued it; and every posted event is handled once, in the order of posting. */
  lemma {:induction false} DispatchConservation(w: World, run: seq<Step>, w': World)
    requires TablesOk(w) && Conserved(w) && Reaches(w, run, w')
    ensures TablesOk(w') && Conserved(w')
    decreases |run|
  {
    if run != [] {
      TablesStep(w, run[0]);
      QueriesStep(w, run[0]);
      EventsStep(w, run[0]);
      DispatchConservation(Next(w, run[0]), run[1..], w');
    }
  }

  lemma InitialTables(w: World)
    requires Initial(w)
    ensures TablesOk(w) && Conserved(w)
  {
  }

  // ---- The effect of one answer ----

  lemma CheckKeepsChain(c: Ctx, h: Handler, ans: Answer)
    requires ans.Rows?
    ensures var d := Check(c, h, ans); d.cbs == c.cbs && d.dead == c.dead && d.log == c.log && d.crashed == c.crashed
  {
  }

  predicate NodeHandler(h: Option<Handler>) {
    h == Some(NodeEnabledHandler) || h == Some(NodeConfiguredHandler)
  }

  /** The answers that become an error event: those that event_cb turns into one itself, and those
      that say of a node that it is unknown, disabled or not configured. */
  predicate BecomesError(c: Ctx, typed: bool, h: Option<Handler>, ans: Answer, env: Env) {
    || Bad(c, typed, ans)
    || (NodeHandler(h) && ans.rows == 0)
    || (h == Some(NodeEnabledHandler) && !(ans.value && env.first))
  }

  /** The answers that are kept: the first list of a VM, a VM that was found, an enabled node. */
  predicate IsKept(c: Ctx, h: Option<Handler>, ans: Answer, env: Env)
    requires ans.Rows?
  {
    || (h.Some? && h.value.ListHandler? && !env.complete)
    || (h == Some(VmHandler) && c.error == NoError && ans.rows > 0)
    || (h == Some(NodeEnabledHandler) && ans.rows > 0 && ans.value && env.first)
  }

  /** What the effect of an answer says of the chain, and when each occurs. */
  ghost predicate Outcome(cbs: seq<Cb>, d: Ctx, e: Effect, error: bool, kept: bool) {
    && (e == Posted(ErrorEvent) <==> error) && (error ==> d.error != NoError && d.cbs == cbs)
    && (e == Kept <==> kept) && (kept ==> d.cbs == cbs)
    && (e == Posted(ResultEvent) <==> cbs == [] && !error && !kept) && (e == Posted(ResultEvent) ==> d.cbs == [])
    && (e == Popped ==> cbs != [] && cbs[0] == Placeholder && d.cbs == cbs[1..])
    && (e.Called? ==> cbs != [] && e.cb == cbs[0])
  }

  lemma DeliverCases(c: Ctx, ok: bool, err: bool)
    ensures Outcome(c.cbs, Deliver(c, ok, err).0, Deliver(c, ok, err).1, false, false)
  {
    hide Run;
  }

  lemma VmCases(c: Ctx, ans: Answer, env: Env)
    requires ans.Rows?
    ensures var (d, e) := HandleVm(c, ans, env); Outcome(c.cbs, d, e, false, c.error == NoError && ans.rows > 0)
  {
    hide Deliver;
    DeliverCases(if ans.rows == 0 then c.(error := UnknownResource) else c, false, false);
  }

  lemma ListCases(c: Ctx, env: Env)
    ensures var (d, e) := HandleList(c, env); Outcome(c.cbs, d, e, false, !env.complete)
  {
    hide Deliver;
    DeliverCases(c, true, true);
  }

  lemma NodeCases(c: Ctx, ans: Answer, env: Env)
    requires ans.Rows?
    ensures var ((d, e), good) := (HandleNodeEnabled(c, ans, env), ans.rows > 0 && ans.value && env.first);
            Outcome(c.cbs, d, e, !good, good) && e != Popped
    ensures var (d, e) := HandleNodeConfigured(c, ans); Outcome(c.cbs, d, e, ans.rows == 0, false) && e != Popped
  {
    hide Run;
  }

  lemma HandleCases(c: Ctx, h: Handler, ans: Answer, env: Env)
    requires ans.Rows?
    ensures var (d, e) := Handle(c, h, ans, env);
            && Outcome(c.cbs, d, e, BecomesError(c, false, Some(h), ans, env), IsKept(c, Some(h), ans, env))
            && (e == Popped ==> !NodeHandler(Some(h)))
  {
    hide Deliver, Check, Outcome, HandleVm, HandleList, HandleNodeEnabled, HandleNodeConfigured;
    CheckKeepsChain(c, h, ans);
    VmCases(c, ans, env);
    ListCases(c, env);
    NodeCases(c, ans, env);
    match h
    case VmHandler =>
    case ListHandler(_) =>
    case NodeEnabledHandler =>
    case NodeConfiguredHandler =>
    case IntHandler => DeliverCases(Check(c, h, ans), ans.value, true);
    case PtrHandler => DeliverCases(Check(c, h, ans), ans.value, false);
    case BoolHandler => DeliverCases(Check(c, h, ans), true, false);
    case ExecHandler => DeliverCases(Check(c, h, ans), true, false);
    case ExecExistsHandler => DeliverCases(Check(c, h, ans), true, false);
  }

  /** When each of the effects of an answer occurs, and what it says of the chain. */
  lemma DispatchCases(c: Ctx, typed: bool, h: Option<Handler>, ans: Answer, env: Env)
    ensures var (d, e) := Dispatch(c, typed, h, ans, env);
            && Outcome(c.cbs, d, e, BecomesError(c, typed, h, ans, env),
                       !Bad(c, typed, ans) && IsKept(c, h, ans, env))
            && (e == Popped ==> h.Some? && !NodeHandler(h))
  {
    hide Handle, Run;
    if !Bad(c, typed, ans) && h.Some? {
      hide Outcome;
      HandleCases(c.(state := false), h.value, ans, env);
    }
  }

  lemma RunCrashes(c: Ctx, cb: Cb, ret: bool)
    requires c.cbs != []
    ensures Run(c, cb, ret).crashed == (c.crashed || cb == Placeholder)
  {
    match cb
    case Placeholder =>
    case BoolJob =>
    case IntJob =>
    case PointerJob =>
    case IntRewind =>
    case BoolRewind =>
    case AuthRewind =>
    case PointerReturn =>
    case IntReturn =>
    case Custom(_) =>
  }

  lemma DeliverCrashes(c: Ctx, ok: bool, err: bool)
    ensures Deliver(c, ok, err).0.crashed == c.crashed && Deliver(c, ok, err).1 != Called(Placeholder)
  {
    hide Run;
    if c.cbs != [] {
      RunCrashes(c, c.cbs[0], if c.error == NoError then ok else err);
    }
  }

  lemma VmCrashes(c: Ctx, ans: Answer, env: Env)
    requires ans.Rows?
    ensures var (d, e) := HandleVm(c, ans, env); d.crashed == c.crashed && e != Called(Placeholder)
  {
    hide Deliver;
    DeliverCrashes(if ans.rows == 0 then c.(error := UnknownResource) else c, false, false);
  }

  lemma EnabledCrashes(c: Ctx, ans: Answer, env: Env)
    requires ans.Rows?
    ensures var (d, e) := HandleNodeEnabled(c, ans, env); d.crashed == c.crashed && e != Called(Placeholder)
  {
  }

  lemma ConfiguredCrashes(c: Ctx, ans: Answer)
    requires ans.Rows? && !c.crashed
    ensures var (d, e) := HandleNodeConfigured(c, ans); d.crashed <==> e == Called(Placeholder)
  {
    hide Run;
    if c.cbs != [] {
      RunCrashes(c.(state := true), c.cbs[0], true);
    }
  }

  lemma HandleCrashes(c: Ctx, h: Handler, ans: Answer, env: Env)
    requires ans.Rows? && !c.crashed
    ensures var (d, e) := Handle(c, h, ans, env);
            (d.crashed <==> e == Called(Placeholder)) && (d.crashed ==> h == NodeConfiguredHandler)
  {
    hide Deliver, Check, HandleVm, HandleNodeEnabled, HandleNodeConfigured;
    CheckKeepsChain(c, h, ans);
    match h
    case VmHandler => VmCrashes(c, ans, env);
    case ListHandler(_) => DeliverCrashes(c, true, true);
    case NodeEnabledHandler => EnabledCrashes(c, ans, env);
    case NodeConfiguredHandler => ConfiguredCrashes(c, ans);
    case IntHandler => DeliverCrashes(Check(c, h, ans), ans.value, true);
    case PtrHandler => DeliverCrashes(Check(c, h, ans), ans.value, false);
    case BoolHandler => DeliverCrashes(Check(c, h, ans), true, false);
    case ExecHandler => DeliverCrashes(Check(c, h, ans), true, false);
    case ExecExistsHandler => DeliverCrashes(Check(c, h, ans), true, false);
  }

  /** event_cb and its handlers call NULL exactly when the head that is called is a placeholder, and
      only for a query without a handler, or for the one that says that a node is configured. */
  lemma NullCall(c: Ctx, typed: bool, h: Option<Handler>, ans: Answer, env: Env)
    requires !c.crashed
    ensures var (d, e) := Dispatch(c, typed, h, ans, env);
            && (d.crashed <==> e == Called(Placeholder))
            && (d.crashed ==> h.None? || h == Some(NodeConfiguredHandler))
  {
    hide Run, Handle;
    if !Bad(c, typed, ans) {
      var d := c.(state := false);
      if h.Some? {
        HandleCrashes(d, h.value, ans, env);
      } else if c.cbs != [] {
        RunCrashes(d, c.cbs[0], ans.value);
      }
    }
  }

  /** All unanswered queries of the context have handlers, none of them about a node. */
  ghost predicate Covered(w: World, id: Id) {
    forall q :: q in w.outstanding && w.outstanding[q] == id ==> q in w.dbCbs && !NodeHandler(Some(w.dbCbs[q]))
  }

  /** The step makes no query for the context without a handler, or about a node, and no callback of
      the context hands on to the next. */
  predicate Covers(s: Step, id: Id) {
    && (s.Issue? && s.id == id ==> s.handler.Some? && !NodeHandler(s.handler))
    && (s.NextCb? ==> s.id != id)
  }

  lemma NullAnswer(w: World, qid: Qid, ans: Answer, first: Option<Qid>, second: Option<Qid>, id: Id)
    requires Enabled(w, AnswerQuery(qid, ans, first, second)) && id in w.ctxs
    requires w.outstanding.Keys <= w.issued.Keys && Covered(w, id) && !w.ctxs[id].crashed
    ensures var w1 := EventCb(w, qid, ans, first, second); Covered(w1, id) && id in w1.ctxs && !w1.ctxs[id].crashed
  {
    var (c, effect) := React(w, qid, ans, first, second);
    var more := Follow(HandlerOf(w, qid), effect, first, second);
    FollowIsNew(w, HandlerOf(w, qid), effect, first, second);
    if w.outstanding[qid] == id {
      NullCall(w.ctxs[id], qid in w.typeCbs, HandlerOf(w, qid), ans, EnvOf(w, qid, first, second));
      FollowsNode(HandlerOf(w, qid), effect, first, second);
    }
    hide Dispatch, Follow, Fetched, EnvOf;
    var w1 := Close(w, qid, ans, c, effect);
    assert Covered(w1, id);
    CoveredOpen(w1, w.outstanding[qid], more, qid, id);
  }

  lemma CoveredOpen(w: World, owner: Id, more: map<Qid, Handler>, vm: Qid, id: Id)
    requires Covered(w, id) && forall q :: q in more ==> q !in w.issued
    requires owner == id ==> forall q :: q in more ==> !NodeHandler(Some(more[q]))
    ensures Covered(Open(w, owner, more, vm), id)
  {
  }

  /** Only the answer about an enabled node makes a query about a node. */
  lemma FollowsNode(h: Option<Handler>, effect: Effect, first: Option<Qid>, second: Option<Qid>)
    ensures var more := Follow(h, effect, first, second);
            forall q :: q in more && NodeHandler(Some(more[q])) ==> NodeHandler(h)
  {
  }

  lemma NullStep(w: World, s: Step, id: Id)
    requires TablesOk(w) && Enabled(w, s) && Covers(s, id) && id in w.ctxs
    requires Covered(w, id) && !w.ctxs[id].crashed
    ensures var w1 := Next(w, s); Covered(w1, id) && id in w1.ctxs && !w1.ctxs[id].crashed
  {
    hide EventCb, ListsOk;
    match s
    case AnswerQuery(qid, ans, first, second) =>
      assert w.outstanding.Keys <= w.issued.Keys;
      NullAnswer(w, qid, ans, first, second, id);
    case _ =>
  }

  /** A context all of whose queries have handlers, and whose callbacks do not hand on, never has NULL
      called, whatever the others do. */
  lemma {:induction false} NoNullCall(w: World, run: seq<Step>, w': World, id: Id)
    requires TablesOk(w) && Reaches(w, run, w') && id in w.ctxs
    requires Covered(w, id) && !w.ctxs[id].crashed
    requires forall i :: 0 <= i < |run| ==> Covers(run[i], id)
    ensures id in w'.ctxs && !w'.ctxs[id].crashed
    decreases |run|
  {
    if run != [] {
      TablesStep(w, run[0]);
      NullStep(w, run[0], id);
      hide TablesOk, Covered, Next;
      NoNullCall(Next(w, run[0]), run[1..], w', id);
    }
  }
}
