/** The call engine in place: contexts and tables whose fields the code updates, proved against the
    functions of Engine. */
module EngineState {
  import opened Options
  import opened VmLists
  import opened Engine

  /** A context, updated in place. */
  class Context {
    var cbs: seq<Cb>
    var error: Error
    var count: int
    var state: bool
    var retSet: bool
    var dead: bool
    var checked: bool
    var auth: bool
    var param: bool
    var content: Content
    var fault: bool
    var crashed: bool
    var jobs: nat
    var log: seq<Action>

    function View(): Ctx
      reads this
    {
      Ctx(cbs, error, count, state, retSet, dead, checked, auth, param, content, fault, crashed, jobs, log)
    }

    constructor (content: Content)
      ensures View() == Ctx([], NoError, 0, false, false, false, false, false, false, content, false, false, 0, [])
    {
      cbs, error, count, state, retSet, dead := [], NoError, 0, false, false, false;
      checked, auth, param, fault, crashed, jobs, log := false, false, false, false, false, 0, [];
      this.content := content;
    }

    method CbAdd(cb: Cb)
      modifies this`cbs
      ensures View() == old(View()).Add(cb)
    {
      if !dead && error == NoError {
        cbs := cbs + [cb];
      }
    }

    method ResumeByError()
      modifies this`fault, this`log
      ensures fault == old(View()).FaultAfterResume() && log == old(log) + old(View()).ResumeLog()
    {
      var ret := true;
      if !dead {
        if content != Gone {
          if error != NoError && !fault {
            fault := true;
            log := log + [Fault(error)];
          }
          ret := !fault;
        }
        log := log + [Resume(ret, false)];
      }
    }

    /** MARK_CB, and one more on the count. */
    method Advance()
      requires cbs != []
      modifies this`cbs, this`count
      ensures cbs == old(cbs)[1..] && count == old(count) + 1
    {
      cbs := cbs[1..];
      count := count + 1;
    }

    /** The value, if there is one, for the function that gets it. */
    method Keep(ret: bool)
      modifies this`param
      ensures param == (ret || old(param))
    {
      if ret {
        param := true;
      }
    }

    method QueueJob()
      modifies this`jobs
      ensures jobs == old(jobs) + 1
    {
      jobs := jobs + 1;
    }

    /** REWIND, and the client resumed with success. */
    method RunAgain()
      modifies this`log
      ensures log == old(log) + [Rewind, Resume(true, false)]
    {
      log := log + [Rewind, Resume(true, false)];
    }

    method CbBoolJob(ret: bool)
      requires cbs != []
      modifies this
      ensures View() == Run(old(View()), BoolJob, ret)
    {
      cbs := cbs[1..];
      if dead { return; }
      count := count + 1;
      QueueJob();
    }

    method CbIntJob(ret: bool)
      requires cbs != []
      modifies this
      ensures View() == Run(old(View()), IntJob, ret)
    {
      cbs := cbs[1..];
      if dead { return; }
      count := count + 1;
      Keep(ret);
      QueueJob();
    }

    method CbPointerJob(ret: bool)
      requires cbs != []
      modifies this
      ensures View() == Run(old(View()), PointerJob, ret)
    {
      if dead { return; }
      Advance();
      Keep(ret);
      QueueJob();
    }

    method CbIntRewind(ret: bool)
      requires cbs != []
      modifies this
      ensures View() == Run(old(View()), IntRewind, ret)
    {
      Advance();
      log := log + [Rewind];
      ResumeByError();
    }

    method CbBoolRewind(ret: bool)
      requires cbs != []
      modifies this
      ensures View() == Run(old(View()), BoolRewind, ret)
    {
      cbs := cbs[1..];
      if dead { return; }
      count := count + 1;
      RunAgain();
    }

    method CbAuthRewind(ret: bool)
      requires cbs != []
      modifies this
      ensures View() == Run(old(View()), AuthRewind, ret)
    {
      cbs := cbs[1..];
      if dead { return; }
      count := 0;
      auth := ret && error == NoError;
      RunAgain();
    }

    method CbPointerReturn(ret: bool)
      requires cbs != []
      modifies this
      ensures View() == Run(old(View()), PointerReturn, ret)
    {
      if dead { return; }
      Advance();
      Keep(ret);
      RunAgain();
    }

    method CbIntReturn(ret: bool)
      requires cbs != []
      modifies this
      ensures View() == Run(old(View()), IntReturn, ret)
    {
      if dead { return; }
      Advance();
      param := true;
      RunAgain();
    }

    /** MARK_CB at the head of any other callback. */
    method CbCustom(guarded: bool, ret: bool)
      requires cbs != []
      modifies this`cbs
      ensures View() == Run(old(View()), Custom(guarded), ret)
    {
      if guarded && dead { return; }
      cbs := cbs[1..];
    }

    /** NEXT_CB, when there is a next one. */
    method NextCb(ret: bool)
      requires cbs != []
      modifies this
      ensures View() == RunNext(old(View()), ret)
    {
      hide Run;
      if dead { return; }
      CallHead(ret);
    }

    /** Calls the head of the chain; calling NULL ends the program. */
    method CallHead(ret: bool)
      requires cbs != []
      modifies this
      ensures View() == Run(old(View()), old(cbs)[0], ret)
    {
      hide Run, View;
      match cbs[0]
      case Placeholder => Crash(ret);
      case BoolJob => CbBoolJob(ret);
      case IntJob => CbIntJob(ret);
      case PointerJob => CbPointerJob(ret);
      case IntRewind => CbIntRewind(ret);
      case BoolRewind => CbBoolRewind(ret);
      case AuthRewind => CbAuthRewind(ret);
      case PointerReturn => CbPointerReturn(ret);
      case IntReturn => CbIntReturn(ret);
      case Custom(guarded) => CbCustom(guarded, ret);
    }

    method Crash(ret: bool)
      requires cbs != []
      modifies this`crashed
      ensures View() == Run(old(View()), Placeholder, ret)
    {
      crashed := true;
    }

    method ErrorHandler()
      modifies this
      ensures View() == OnError(old(View()))
    {
      if !dead {
        fault := true;
        log := log + [Fault(error)];
        cbs := [];
        param := false;
        log := log + [Resume(false, true)];
        dead := true;
      }
    }

    method ResultHandler()
      modifies this
      ensures View() == OnResult(old(View()))
    {
      if !dead {
        if content != Gone && !retSet {
          if error != NoError {
            fault := true;
            log := log + [Fault(error)];
          }
          if content == PreCall {
            log := log + [Resume(error == NoError, false)];
            return;
          }
        }
        log := log + [Resume(true, true)];
        dead := true;
      }
    }
  }

  /** The two list fields of a VM object. */
  class Record {
    var disks: Slot
    var vifs: Slot

    constructor ()
      ensures disks == vifs == Null
    {
      disks, vifs := Null, Null;
    }

    ghost function View(): Assembly
      reads this
    {
      Assembly(disks, vifs, [], [])
    }

    ghost predicate IsNow(a: Assembly)
      reads this
    {
      disks == a.disks && vifs == a.vifs
    }
  }

  /** type_cbs, db_cbs and db_cb_params. */
  datatype Entries = Entries(typeCbs: set<Qid>, dbCbs: map<Qid, Handler>, params: map<Qid, Record>)
  {
    /** The handler of a query is called for, and its entry removed. */
    function Without(qid: Qid): Entries {
      this.(dbCbs := dbCbs - {qid})
    }

    /** Queries with their handlers are entered, with v as the parameter if there is one. */
    function With(more: map<Qid, Handler>, v: Option<Record>): Entries {
      Entries(typeCbs + more.Keys, dbCbs + more, params + Given(more.Keys, v))
    }

    /** What the query's handler does to the tables: a list takes its VM out, and the handler's own
        queries are entered, those for lists with the VM that was found. */
    function Handled(h: Handler, qid: Qid, more: map<Qid, Handler>, found: Record): Entries {
      (if h.ListHandler? then this.(params := params - {qid}) else this).With(more, if h.VmHandler? then Some(found) else None)
    }
  }

  /** What event_cb does to the tables. */
  function After(e: Entries, bad: bool, qid: Qid, effect: Effect, found: Record, first: Option<Qid>, second: Option<Qid>): Entries {
    if bad || qid !in e.dbCbs then e.Without(qid)
    else e.Without(qid).Handled(e.dbCbs[qid], qid, Follow(Some(e.dbCbs[qid]), effect, first, second), found)
  }

  function Given(qids: set<Qid>, v: Option<Record>): map<Qid, Record> {
    if v.Some? then map q | q in qids :: v.value else map[]
  }

  lemma Regroup<K, V>(a: map<K, V>, b: map<K, V>, c: map<K, V>)
    ensures a + b + c == a + (b + c) && (b + c).Keys == b.Keys + c.Keys
  {
  }

  lemma GivenTwice(one: set<Qid>, two: set<Qid>, v: Option<Record>)
    ensures Given(one, v) + Given(two, v) == Given(one + two, v)
  {
  }

  lemma WithTwice(e: Entries, one: map<Qid, Handler>, two: map<Qid, Handler>, v: Option<Record>)
    ensures e.With(one, v).With(two, v) == e.With(one + two, v)
  {
    Regroup(e.dbCbs, one, two);
    Regroup(e.params, Given(one.Keys, v), Given(two.Keys, v));
    GivenTwice(one.Keys, two.Keys, v);
    hide Given;
  }

  lemma WithOne(e: Entries, qid: Qid, h: Handler, v: Option<Record>)
    ensures e.With(map[qid := h], v) ==
            Entries(e.typeCbs + {qid}, e.dbCbs[qid := h], if v.Some? then e.params[qid := v.value] else e.params)
  {
    assert map[qid := h].Keys == {qid};
    assert e.dbCbs + map[qid := h] == e.dbCbs[qid := h];
  }

  lemma WithNone(e: Entries, v: Option<Record>)
    ensures e.With(map[], v) == e
  {
    assert Given({}, v) == map[];
  }

  /** The tables of zrpcdb.c, and the event queue. */
  class Tables {
    var typeCbs: set<Qid>
    var dbCbs: map<Qid, Handler>
    var params: map<Qid, Record>
    var events: seq<(Context, Event)>

    function View(): Entries
      reads this
    {
      Entries(typeCbs, dbCbs, params)
    }

    function HandlerOf(qid: Qid): Option<Handler>
      reads this
    {
      if qid in dbCbs then Some(dbCbs[qid]) else None
    }

    /** The record that the query's handler can change. */
    function RecordOf(qid: Qid): set<Record>
      reads this
    {
      if qid in dbCbs && dbCbs[qid].ListHandler? && qid in params then {params[qid]} else {}
    }

    /** What the query's handler will find: the VM's other list, and the queries that can be created. */
    ghost function EnvOf(h: Handler, qid: Qid, first: Option<Qid>, second: Option<Qid>): Env
      reads this, if qid in params then {params[qid]} else {}
    {
      Env(h.ListHandler? && qid in params && params[qid].View().Other(h.kind) != Null, first.Some?, second.Some?)
    }

    method Post(ctx: Context, e: Event)
      modifies this`events
      ensures events == old(events) + [(ctx, e)]
    {
      events := events + [(ctx, e)];
    }

    /** The tail of every handler: the head, a placeholder, or a result event. */
    method DeliverTo(ctx: Context, ok: bool, err: bool) returns (effect: Effect)
      modifies this`events, ctx
      ensures (ctx.View(), effect) == Deliver(old(ctx.View()), ok, err)
      ensures events == old(events) + if effect.Posted? then [(ctx, effect.event)] else []
    {
      if ctx.cbs != [] {
        var cb := ctx.cbs[0];
        if cb == Placeholder {
          ctx.cbs := ctx.cbs[1..];
          return Popped;
        }
        ctx.CallHead(if ctx.error == NoError then ok else err);
        return Called(cb);
      }
      Post(ctx, ResultEvent);
      return Posted(ResultEvent);
    }

    /** The handlers of zrpcdb.x. */
    method HandleResult(ctx: Context, h: Handler, ans: Answer) returns (effect: Effect)
      requires ans.Rows? && (h.ExecHandler? || h.ExecExistsHandler? || h.PtrHandler? || h.IntHandler? || h.BoolHandler?)
      modifies this`events, ctx
      ensures (ctx.View(), effect) == Handle(old(ctx.View()), h, ans, NOTHING)
      ensures events == old(events) + if effect.Posted? then [(ctx, effect.event)] else []
    {
      hide Deliver;
      var empty := if h == ExecHandler then ans.affected == 0 else ans.rows == 0;
      if empty && ctx.error == NoError {
        ctx.error := if h == ExecExistsHandler then EntityAlreadyExists else UnknownResource;
      }
      effect := DeliverTo(ctx, if h == PtrHandler || h == IntHandler then ans.value else true, h == IntHandler);
    }

    /** QUERY or QUERY_NOCONVERT, then QID_CB_ADD, for an id that the client library hands out. */
    method Register(qid: Qid, typed: bool, h: Option<Handler>)
      modifies this`typeCbs, this`dbCbs
      ensures typeCbs == old(typeCbs) + if typed then {qid} else {}
      ensures dbCbs == if h.Some? then old(dbCbs)[qid := h.value] else old(dbCbs)
    {
      if typed {
        typeCbs := typeCbs + {qid};
      }
      if h.Some? {
        dbCbs := dbCbs[qid := h.value];
      }
    }

    /** A query that a handler makes, with its handler and, for a list, its VM; none if it cannot be created. */
    method Ask(ctx: Context, qid: Option<Qid>, h: Handler, v: Option<Record>)
      modifies this`typeCbs, this`dbCbs, this`params, ctx`error
      ensures View() == old(View()).With(Made(qid, h), v)
      ensures ctx.error == if qid.Some? then old(ctx.error) else DbFail
    {
      WithNone(View(), v);
      if qid.None? {
        ctx.error := DbFail;
        return;
      }
      WithOne(View(), qid.value, h, v);
      hide Entries.With, Given;
      Register(qid.value, true, Some(h));
      if v.Some? {
        params := params[qid.value := v.value];
      }
    }

    /** zrpcdb_vm_stats */
    method HandleVm(ctx: Context, ans: Answer, found: Record, first: Option<Qid>, second: Option<Qid>) returns (effect: Effect)
      requires ans.Rows? && (first.Some? && second.Some? ==> first != second)
      modifies this, ctx
      ensures (ctx.View(), effect) == Engine.HandleVm(old(ctx.View()), ans, Env(false, first.Some?, second.Some?))
      ensures events == old(events) + if effect.Posted? then [(ctx, effect.event)] else []
      ensures View() == old(View()).With(Follow(Some(VmHandler), effect, first, second), Some(found))
    {
      hide Deliver, Made, Entries.With;
      WithNone(View(), Some(found));
      if ans.rows == 0 {
        ctx.error := UnknownResource;
      }
      if ctx.error != NoError {
        effect := DeliverTo(ctx, false, false);
        return;
      }
      WithTwice(View(), Made(first, ListHandler(Disks)), Made(second, ListHandler(Vifs)), Some(found));
      Ask(ctx, first, ListHandler(Disks), Some(found));
      Ask(ctx, second, ListHandler(Vifs), Some(found));
      return Kept;
    }

    /** zrpcdb_vm_disks */
    method HandleDisks(qid: Qid, ctx: Context, disks: seq<Item>) returns (effect: Effect)
      requires qid in params
      modifies this`params, this`events, params[qid], ctx
      ensures params == old(params) - {qid}
      ensures var (v, a) := (old(params[qid]), Arrive(old(params[qid].View()), Disks, disks));
              && v.IsNow(a) && (effect == Kept <==> a.delivered == [])
              && (a.delivered != [] ==> a.delivered == [(v.disks, v.vifs)])
      ensures (ctx.View(), effect) == Engine.HandleList(old(ctx.View()), Env(old(params[qid].vifs) != Null, false, false))
      ensures events == old(events) + if effect.Posted? then [(ctx, effect.event)] else []
    {
      hide Deliver;
      var v := params[qid];
      params := params - {qid};
      v.disks := if disks == [] then Null else List(disks);
      if v.disks == Null {
        v.disks := Mark;
      }
      effect := Kept;
      if v.vifs != Null {
        if v.vifs == Mark {
          v.vifs := Null;
        }
        effect := DeliverTo(ctx, true, true);
      }
    }

    /** zrpcdb_vm_vifs */
    method HandleVifs(qid: Qid, ctx: Context, vifs: seq<Item>) returns (effect: Effect)
      requires qid in params
      modifies this`params, this`events, params[qid], ctx
      ensures params == old(params) - {qid}
      ensures var (v, a) := (old(params[qid]), Arrive(old(params[qid].View()), Vifs, vifs));
              && v.IsNow(a) && (effect == Kept <==> a.delivered == [])
              && (a.delivered != [] ==> a.delivered == [(v.disks, v.vifs)])
      ensures (ctx.View(), effect) == Engine.HandleList(old(ctx.View()), Env(old(params[qid].disks) != Null, false, false))
      ensures events == old(events) + if effect.Posted? then [(ctx, effect.event)] else []
    {
      hide Deliver;
      var v := params[qid];
      params := params - {qid};
      v.vifs := if vifs == [] then Null else List(vifs);
      if v.vifs == Null {
        v.vifs := Mark;
      }
      effect := Kept;
      if v.disks != Null {
        if v.disks == Mark {
          v.disks := Null;
        }
        effect := DeliverTo(ctx, true, true);
      }
    }

    /** zrpcdb_node_cb_enc */
    method HandleNodeEnabled(ctx: Context, ans: Answer, first: Option<Qid>, ghost second: Option<Qid>)
      returns (effect: Effect)
      requires ans.Rows?
      modifies this, ctx
      ensures (ctx.View(), effect) == Engine.HandleNodeEnabled(old(ctx.View()), ans, Env(false, first.Some?, second.Some?))
      ensures events == old(events) + if effect.Posted? then [(ctx, effect.event)] else []
      ensures View() == old(View()).With(Follow(Some(NodeEnabledHandler), effect, first, second), None)
    {
      hide Entries.With;
      WithNone(View(), None);
      if ans.rows == 0 || !ans.value {
        ctx.error := if ans.rows == 0 then UnknownResource else NodeDisabled;
        Post(ctx, ErrorEvent);
        return Posted(ErrorEvent);
      }
      ctx.state := true;
      Ask(ctx, first, NodeConfiguredHandler, None);
      if first.None? {
        Post(ctx, ErrorEvent);
        return Posted(ErrorEvent);
      }
      return Kept;
    }

    /** zrpcdb_node_cb_conf */
    method HandleNodeConfigured(ctx: Context, ans: Answer) returns (effect: Effect)
      requires ans.Rows?
      modifies this`events, ctx
      ensures (ctx.View(), effect) == Engine.HandleNodeConfigured(old(ctx.View()), ans)
      ensures events == old(events) + if effect.Posted? then [(ctx, effect.event)] else []
    {
      if ans.rows == 0 {
        ctx.error := NodeUnconfigured;
        Post(ctx, ErrorEvent);
        return Posted(ErrorEvent);
      }
      if ctx.cbs != [] {
        effect := Called(ctx.cbs[0]);
        ctx.state := true;
        ctx.CallHead(true);
      } else {
        Post(ctx, ResultEvent);
        effect := Posted(ResultEvent);
      }
    }

    /** The two list handlers. */
    method HandleList(qid: Qid, ctx: Context, kind: Kind, list: seq<Item>) returns (effect: Effect)
      requires qid in params
      modifies this`params, this`events, params[qid], ctx
      ensures View() == old(View()).(params := old(params) - {qid})
      ensures old(params[qid]).IsNow(Arrive(old(params[qid].View()), kind, list))
      ensures (ctx.View(), effect) == Engine.HandleList(old(ctx.View()), Env(old(params[qid].View().Other(kind)) != Null, false, false))
      ensures events == old(events) + if effect.Posted? then [(ctx, effect.event)] else []
    {
      hide Deliver;
      if kind == Disks {
        effect := HandleDisks(qid, ctx, list);
      } else {
        effect := HandleVifs(qid, ctx, list);
      }
    }

    /** end_cb: the handler that was registered for the query. */
    method HandleAnswer(qid: Qid, ctx: Context, h: Handler, ans: Answer, found: Record, first: Option<Qid>, second: Option<Qid>)
      returns (effect: Effect)
      requires ans.Rows? && (h.ListHandler? ==> qid in params)
      requires first.Some? && second.Some? ==> first != second
      modifies this, ctx, if h.ListHandler? && qid in params then {params[qid]} else {}
      ensures (ctx.View(), effect) == Handle(old(ctx.View()), h, ans, old(EnvOf(h, qid, first, second)))
      ensures events == old(events) + if effect.Posted? then [(ctx, effect.event)] else []
      ensures View() == old(View()).Handled(h, qid, Follow(Some(h), effect, first, second), found)
      ensures h.ListHandler? ==> old(params[qid]).IsNow(Arrive(old(params[qid].View()), h.kind, ans.list))
    {
      hide Deliver, Arrive, Made, Follow;
      WithNone(View(), None);
      WithNone(View().(params := params - {qid}), None);
      hide Entries.With;
      match h
      case VmHandler => effect := HandleVm(ctx, ans, found, first, second);
      case ListHandler(kind) => effect := HandleList(qid, ctx, kind, ans.list);
      case NodeEnabledHandler => effect := HandleNodeEnabled(ctx, ans, first, second);
      case NodeConfiguredHandler => effect := HandleNodeConfigured(ctx, ans);
      case _ => effect := HandleResult(ctx, h, ans);
    }

    method Fail(qid: Qid, ctx: Context, e: Error)
      modifies this`dbCbs, this`events, ctx`error
      ensures View() == old(View()).Without(qid) && ctx.error == e && events == old(events) + [(ctx, ErrorEvent)]
    {
      dbCbs := dbCbs - {qid};
      ctx.error := e;
      Post(ctx, ErrorEvent);
    }

    /** The middle of event_cb, for a query with a handler. */
    method EndCb(qid: Qid, ctx: Context, ans: Answer, found: Record, first: Option<Qid>, second: Option<Qid>)
      returns (effect: Effect)
      requires ans.Rows? && qid in dbCbs && (dbCbs[qid].ListHandler? ==> qid in params)
      requires first.Some? && second.Some? ==> first != second
      modifies this, ctx, RecordOf(qid)
      ensures (ctx.View(), effect) == Handle(old(ctx.View()), old(dbCbs[qid]), ans, old(Around(qid, first, second)))
      ensures events == old(events) + if effect.Posted? then [(ctx, effect.event)] else []
      ensures var (was, h) := (old(View()), old(dbCbs[qid]));
              && View() == was.Without(qid).Handled(h, qid, Follow(Some(h), effect, first, second), found)
              && (h.ListHandler? ==> was.params[qid].IsNow(Arrive(old(params[qid].View()), h.kind, ans.list)))
    {
      hide Handle, Arrive, Follow, Entries.Handled;
      var endCb := dbCbs[qid];
      dbCbs := dbCbs - {qid};
      effect := HandleAnswer(qid, ctx, endCb, ans, found, first, second);
    }

    /** The end of event_cb, for a query without a handler. */
    method NoHandler(ctx: Context, ans: Answer, state: bool) returns (effect: Effect)
      requires ans.Rows?
      modifies this`events, ctx
      ensures events == old(events) + if effect.Posted? then [(ctx, effect.event)] else []
      ensures (ctx.View(), effect) == Settle(old(ctx.View()), None, ans, NOTHING, state)
    {
      if ctx.cbs != [] {
        effect := Called(ctx.cbs[0]);
        ctx.CallHead(ans.value);
      } else {
        ctx.state := state;
        Post(ctx, ResultEvent);
        effect := Posted(ResultEvent);
      }
    }

    /** A good answer, with or without a handler. */
    method Settled(qid: Qid, ctx: Context, ans: Answer, state: bool, found: Record, first: Option<Qid>, second: Option<Qid>)
      returns (effect: Effect)
      requires ans.Rows? && (qid in dbCbs && dbCbs[qid].ListHandler? ==> qid in params)
      requires first.Some? && second.Some? ==> first != second
      modifies this, ctx, RecordOf(qid)
      ensures (ctx.View(), effect) == Settle(old(ctx.View()), old(HandlerOf(qid)), ans, old(Around(qid, first, second)), state)
      ensures events == old(events) + if effect.Posted? then [(ctx, effect.event)] else []
      ensures View() == After(old(View()), false, qid, effect, found, first, second)
      ensures old(HandlerOf(qid)).Some? && old(HandlerOf(qid)).value.ListHandler? ==>
                old(params[qid]).IsNow(Arrive(old(params[qid].View()), old(dbCbs[qid].kind), ans.list))
    {
      hide Handle, Arrive, Follow, Run, Entries.Handled;
      if qid in dbCbs {
        effect := EndCb(qid, ctx, ans, found, first, second);
      } else {
        effect := NoHandler(ctx, ans, state);
      }
    }

    /** event_cb: whatever branch is taken, the query's handler entry is gone afterwards, and the
        handler's own queries are entered. */
    method EventCb(qid: Qid, ctx: Context, ans: Answer, found: Record, first: Option<Qid>, second: Option<Qid>)
      returns (effect: Effect)
      requires qid in dbCbs && dbCbs[qid].ListHandler? ==> qid in params
      requires first.Some? && second.Some? ==> first != second
      modifies this, ctx, RecordOf(qid)
      ensures (ctx.View(), effect) == Dispatch(old(ctx.View()), old(qid in typeCbs), old(HandlerOf(qid)), ans,
                                               old(Around(qid, first, second)))
      ensures events == old(events) + if effect.Posted? then [(ctx, effect.event)] else []
      ensures View() == After(old(View()), old(Bad(ctx.View(), qid in typeCbs, ans)), qid, effect, found, first, second)
      ensures old(HandlerOf(qid)).Some? && old(HandlerOf(qid)).value.ListHandler? && !old(Bad(ctx.View(), qid in typeCbs, ans)) ==>
                old(params[qid]).IsNow(Arrive(old(params[qid].View()), old(dbCbs[qid].kind), ans.list))
      ensures old(Bad(ctx.View(), qid in typeCbs, ans)) ==> forall r :: r in old(RecordOf(qid)) ==> unchanged(r)
    {
      hide Settle, Arrive, Follow, Entries.Handled, Around;
      var state := ctx.state;
      ctx.state := false;
      if ans.Failed? {
        Fail(qid, ctx, DbQuery);
        effect := Posted(ErrorEvent);
      } else if qid in typeCbs && state && ans.rows > 1 {
        ctx.state := state;
        Fail(qid, ctx, DbMulti);
        effect := Posted(ErrorEvent);
      } else {
        effect := Settled(qid, ctx, ans, state, found, first, second);
      }
    }

    ghost function Around(qid: Qid, first: Option<Qid>, second: Option<Qid>): Env
      reads this, if qid in params then {params[qid]} else {}
    {
      if qid in dbCbs then EnvOf(dbCbs[qid], qid, first, second) else Env(false, first.Some?, second.Some?)
    }
  }
}
