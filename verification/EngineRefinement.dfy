/** The classes of EngineState move as the transition system of EngineRuns does: objects that stand
    for a world stand for its next one after each of their methods. */
module EngineRefinement {
  import opened Options
  import opened VmLists
  import opened Engine
  import opened EngineState
  import opened EngineRuns

  /** Which object stands for which context, and which record for which VM. */
  datatype Objects = Objects(ctxs: map<Id, Context>, vms: map<Qid, Record>)

  /** No object stands for two. */
  ghost predicate Apart(o: Objects) {
    && (forall i, j :: i in o.ctxs && j in o.ctxs && o.ctxs[i] == o.ctxs[j] ==> i == j)
    && (forall v, u :: v in o.vms && u in o.vms && o.vms[v] == o.vms[u] ==> v == u)
  }

  /** The parameters of list queries are the VMs' records. */
  ghost predicate SameParams(params: map<Qid, Record>, vms: map<Qid, Record>, ids: map<Qid, Qid>) {
    params.Keys == ids.Keys && forall q :: q in params ==> ids[q] in vms && params[q] == vms[ids[q]]
  }

  /** The tables list what the world's tables do. */
  ghost predicate SameEntries(e: Entries, vms: map<Qid, Record>, w: World) {
    e.typeCbs == w.typeCbs && e.dbCbs == w.dbCbs && SameParams(e.params, vms, w.params)
  }

  ghost predicate SameEvents(events: seq<(Context, Event)>, ctxs: map<Id, Context>, queue: seq<(Id, Event)>) {
    && |events| == |queue|
    && forall i :: 0 <= i < |queue| ==> queue[i].0 in ctxs && events[i] == (ctxs[queue[i].0], queue[i].1)
  }

  ghost function Views(ctxs: map<Id, Context>): map<Id, Ctx>
    reads ctxs.Values
  {
    map id | id in ctxs :: ctxs[id].View()
  }

  ghost function Slots(vms: map<Qid, Record>): map<Qid, (Slot, Slot)>
    reads vms.Values
  {
    map v | v in vms :: (vms[v].disks, vms[v].vifs)
  }

  ghost function SlotsOf(vms: map<Qid, Assembly>): map<Qid, (Slot, Slot)> {
    map v | v in vms :: (vms[v].disks, vms[v].vifs)
  }

  ghost predicate StandsFor(t: Tables, o: Objects, w: World)
    reads t, o.ctxs.Values, o.vms.Values
  {
    && Apart(o) && Views(o.ctxs) == w.ctxs && Slots(o.vms) == SlotsOf(w.vms)
    && SameEntries(t.View(), o.vms, w) && SameEvents(t.events, o.ctxs, w.queue)
  }

  /** The VMs' records after an answer: one more if a VM has been found. */
  function Records(vms: map<Qid, Record>, w: World, qid: Qid, effect: Effect, found: Record): map<Qid, Record> {
    if HandlerOf(w, qid) == Some(VmHandler) && effect == Kept then vms[qid := found] else vms
  }

  /** The answered query is gone from both. */
  function Closed(e: Entries, w: World, qid: Qid, ans: Answer): Entries
    requires qid in w.outstanding && w.outstanding[qid] in w.ctxs
  {
    if Brings(w, qid, ans) then e.Without(qid).(params := e.params - {qid}) else e.Without(qid)
  }

  lemma CloseFollows(
    e: Entries, vms: map<Qid, Record>, w: World, qid: Qid, ans: Answer, c: Ctx, effect: Effect, found: Record)
    requires TablesOk(w) && qid in w.outstanding && SameEntries(e, vms, w) && vms.Keys == w.vms.Keys
    ensures SameEntries(Closed(e, w, qid, ans), Records(vms, w, qid, effect, found), Close(w, qid, ans, c, effect))
  {
    hide Fetched;
    assert qid !in vms;
  }

  lemma ParamsGrow(params: map<Qid, Record>, vms: map<Qid, Record>, ids: map<Qid, Qid>, more: map<Qid, Record>, added: map<Qid, Qid>)
    requires SameParams(params, vms, ids) && SameParams(more, vms, added)
    ensures SameParams(params + more, vms, ids + added)
  {
  }

  lemma ParamsGiven(vms: map<Qid, Record>, more: map<Qid, Handler>, vm: Qid, v: Option<Record>)
    requires if v.Some? then vm in vms && vms[vm] == v.value && forall q :: q in more ==> more[q].ListHandler?
             else forall q :: q in more ==> !more[q].ListHandler?
    ensures SameParams(Given(more.Keys, v), vms, Named(more, vm))
  {
  }

  lemma OpenFollows(
    e: Entries, vms: map<Qid, Record>, w: World, id: Id, more: map<Qid, Handler>, vm: Qid, v: Option<Record>)
    requires SameEntries(e, vms, w)
    requires if v.Some? then vm in vms && vms[vm] == v.value && forall q :: q in more ==> more[q].ListHandler?
             else forall q :: q in more ==> !more[q].ListHandler?
    ensures SameEntries(e.With(more, v), vms, Open(w, id, more, vm))
  {
    ParamsGiven(vms, more, vm, v);
    hide SameParams, Given, Named;
    ParamsGrow(e.params, vms, w.params, Given(more.Keys, v), Named(more, vm));
  }

  /** What the answer does to the tables. */
  lemma EntriesFollow(
    e: Entries, vms: map<Qid, Record>, w: World, qid: Qid, ans: Answer, found: Record, first: Option<Qid>, second: Option<Qid>)
    requires TablesOk(w) && Enabled(w, AnswerQuery(qid, ans, first, second)) && SameEntries(e, vms, w) && vms.Keys == w.vms.Keys
    ensures var effect := React(w, qid, ans, first, second).1;
            SameEntries(EngineState.After(e, Bad(w.ctxs[w.outstanding[qid]], qid in w.typeCbs, ans), qid, effect, found, first, second),
                        Records(vms, w, qid, effect, found), EventCb(w, qid, ans, first, second))
  {
    var (c, effect) := React(w, qid, ans, first, second);
    var h, bad := HandlerOf(w, qid), Bad(w.ctxs[w.outstanding[qid]], qid in w.typeCbs, ans);
    var more := Follow(h, effect, first, second);
    var v := if h == Some(VmHandler) then Some(found) else None;
    assert bad ==> effect != Kept;
    assert effect != Kept || h.None? ==> more == map[];
    hide Dispatch, Follow;
    CloseFollows(e, vms, w, qid, ans, c, effect, found);
    AfterIs(e, w, qid, ans, effect, found, first, second);
    hide SameEntries, Closed, Entries.With, Close, Open;
    if more != map[] {
      OpenFollows(Closed(e, w, qid, ans), Records(vms, w, qid, effect, found), Close(w, qid, ans, c, effect),
                  w.outstanding[qid], more, qid, v);
    } else {
      OpenFollows(Closed(e, w, qid, ans), Records(vms, w, qid, effect, found), Close(w, qid, ans, c, effect),
                  w.outstanding[qid], more, qid, None);
      WithNone(Closed(e, w, qid, ans), v);
      WithNone(Closed(e, w, qid, ans), None);
    }
  }

  lemma AfterIs(
    e: Entries, w: World, qid: Qid, ans: Answer, effect: Effect, found: Record, first: Option<Qid>, second: Option<Qid>)
    requires TablesOk(w) && Enabled(w, AnswerQuery(qid, ans, first, second)) && e.dbCbs == w.dbCbs
    requires Bad(w.ctxs[w.outstanding[qid]], qid in w.typeCbs, ans) ==> effect != Kept
    ensures var h := HandlerOf(w, qid);
            EngineState.After(e, Bad(w.ctxs[w.outstanding[qid]], qid in w.typeCbs, ans), qid, effect, found, first, second)
            == Closed(e, w, qid, ans).With(Follow(h, effect, first, second), if h == Some(VmHandler) then Some(found) else None)
  {
    WithNone(e.Without(qid), None);
    WithNone(e.Without(qid), Some(found));
    hide Entries.With;
  }

  /** What the query's handler finds in the objects is what it finds in the world. */
  lemma SameEnv(t: Tables, o: Objects, w: World, qid: Qid, first: Option<Qid>, second: Option<Qid>)
    requires StandsFor(t, o, w) && TablesOk(w) && qid in w.outstanding
    ensures t.Around(qid, first, second) == EngineRuns.EnvOf(w, qid, first, second)
    ensures t.HandlerOf(qid) == EngineRuns.HandlerOf(w, qid) && (qid in t.typeCbs <==> qid in w.typeCbs)
    ensures var id := w.outstanding[qid]; id in o.ctxs && o.ctxs[id].View() == w.ctxs[id]
    ensures EngineRuns.ForList(w, qid) <==> qid in t.dbCbs && t.dbCbs[qid].ListHandler?
    ensures o.vms.Keys == w.vms.Keys
    ensures EngineRuns.ForList(w, qid) ==>
              && qid in t.params && w.params[qid] in o.vms && t.params[qid] == o.vms[w.params[qid]]
              && SlotsOf(w.vms)[w.params[qid]] == (t.params[qid].disks, t.params[qid].vifs)
  {
    assert w.outstanding[qid] in Views(o.ctxs);
    SameKeys(o.vms, w.vms);
    assert EngineRuns.ForList(w, qid) <==> qid in w.dbCbs && w.dbCbs[qid].ListHandler?;
    hide Apart, SameEvents, TablesOk, Views;
    if EngineRuns.ForList(w, qid) {
      SameFields(o.vms, w.vms, w.params[qid]);
    }
    hide Slots, SlotsOf;
  }

  lemma SameKeys(vms: map<Qid, Record>, was: map<Qid, Assembly>)
    requires Slots(vms) == SlotsOf(was)
    ensures vms.Keys == was.Keys
  {
    assert vms.Keys == Slots(vms).Keys && was.Keys == SlotsOf(was).Keys;
  }

  lemma SameFields(vms: map<Qid, Record>, was: map<Qid, Assembly>, v: Qid)
    requires Slots(vms) == SlotsOf(was) && v in was && v in vms
    ensures vms[v].disks == was[v].disks && vms[v].vifs == was[v].vifs
    ensures v in SlotsOf(was) && SlotsOf(was)[v] == (vms[v].disks, vms[v].vifs)
  {
    assert Slots(vms)[v] == SlotsOf(was)[v];
  }

  /** The same VM after a list has arrived, seen by its fields. */
  lemma ArriveFields(vms: map<Qid, Assembly>, v: Qid, a: Assembly, kind: Kind, list: seq<Item>)
    requires v in vms && SlotsOf(vms)[v] == (a.disks, a.vifs)
    ensures var b := Arrive(a, kind, list);
            SlotsOf(vms[v := Arrive(vms[v], kind, list)]) == SlotsOf(vms)[v := (b.disks, b.vifs)]
  {
  }

  lemma MoreEvents(events: seq<(Context, Event)>, ctxs: map<Id, Context>, queue: seq<(Id, Event)>, id: Id, effect: Effect)
    requires SameEvents(events, ctxs, queue) && id in ctxs
    ensures SameEvents(events + (if effect.Posted? then [(ctxs[id], effect.event)] else []), ctxs,
                       queue + if effect.Posted? then [(id, effect.event)] else [])
  {
  }

  /** A VM has been found: its record has not stood for any other. */
  lemma RecordAdded(o: Objects, was: map<Qid, Assembly>, v: Qid, found: Record)
    requires Apart(o) && found !in o.vms.Values && Slots(o.vms) == SlotsOf(was) && found.IsNow(Begun())
    ensures Apart(o.(vms := o.vms[v := found]))
    ensures Slots(o.vms[v := found]) == SlotsOf(was[v := Begun()])
  {
    assert Slots(o.vms[v := found]) == Slots(o.vms)[v := (Null, Null)];
    assert SlotsOf(was[v := Begun()]) == SlotsOf(was)[v := (Null, Null)];
  }

  /** event_cb among all the objects: one context moves, and at most one record. */
  method Fire(t: Tables, ghost o: Objects, ghost id: Id, ghost vm: Qid, qid: Qid, ctx: Context, ans: Answer, found: Record,
              first: Option<Qid>, second: Option<Qid>)
    returns (effect: Effect)
    requires Apart(o) && id in o.ctxs && ctx == o.ctxs[id]
    requires qid in t.dbCbs && t.dbCbs[qid].ListHandler? ==> qid in t.params && vm in o.vms && t.params[qid] == o.vms[vm]
    requires first.Some? && second.Some? ==> first != second
    modifies t, ctx, t.RecordOf(qid)
    ensures (ctx.View(), effect) == Dispatch(old(ctx.View()), old(qid in t.typeCbs), old(t.HandlerOf(qid)), ans,
                                             old(t.Around(qid, first, second)))
    ensures Views(o.ctxs) == old(Views(o.ctxs))[id := ctx.View()]
    ensures old(t.RecordOf(qid)) == {} || old(Bad(ctx.View(), qid in t.typeCbs, ans)) ==> Slots(o.vms) == old(Slots(o.vms))
    ensures old(t.RecordOf(qid)) != {} && !old(Bad(ctx.View(), qid in t.typeCbs, ans)) ==>
              var a := Arrive(old(o.vms[vm].View()), old(t.dbCbs[qid].kind), ans.list);
              Slots(o.vms) == old(Slots(o.vms))[vm := (a.disks, a.vifs)]
    ensures t.events == old(t.events) + if effect.Posted? then [(ctx, effect.event)] else []
    ensures t.View() == EngineState.After(old(t.View()), old(Bad(ctx.View(), qid in t.typeCbs, ans)), qid, effect, found, first, second)
  {
    hide Dispatch, Arrive, EngineState.After, Bad;
    effect := t.EventCb(qid, ctx, ans, found, first, second);
  }

  /** event_cb, on the objects that stand for a world. */
  method Answer(t: Tables, ghost o: Objects, ghost w: World, qid: Qid, ctx: Context, ans: Answer, found: Record,
                first: Option<Qid>, second: Option<Qid>)
    returns (effect: Effect, ghost o': Objects)
    requires StandsFor(t, o, w) && TablesOk(w) && Enabled(w, AnswerQuery(qid, ans, first, second))
    requires ctx == o.ctxs[w.outstanding[qid]]
    requires found !in o.vms.Values && found.IsNow(Begun())
    modifies t, ctx, t.RecordOf(qid)
    ensures effect == React(w, qid, ans, first, second).1
    ensures o' == Objects(o.ctxs, Records(o.vms, w, qid, effect, found))
    ensures StandsFor(t, o', Next(w, AnswerQuery(qid, ans, first, second)))
  {
    hide Dispatch, Settle, Follow, Arrive, EngineState.After, Views, Slots, SlotsOf, Apart, SameEntries, SameEvents, TablesOk;
    SameEnv(t, o, w, qid, first, second);
    ghost var id, vm := w.outstanding[qid], if EngineRuns.ForList(w, qid) then w.params[qid] else 0;
    ghost var e, events := t.View(), t.events;
    ghost var list := if qid in t.dbCbs && t.dbCbs[qid].ListHandler? then o.vms[vm].View() else Begun();
    effect := Fire(t, o, id, vm, qid, ctx, ans, found, first, second);
    o' := Objects(o.ctxs, Records(o.vms, w, qid, effect, found));
    AnswerMoves(w, qid, ans, first, second);
    EntriesFollow(e, o.vms, w, qid, ans, found, first, second);
    MoreEvents(events, o.ctxs, w.queue, id, effect);
    if Brings(w, qid, ans) {
      ArriveFields(w.vms, vm, list, w.dbCbs[qid].kind, ans.list);
    } else if EngineRuns.HandlerOf(w, qid) == Some(VmHandler) && effect == Kept {
      RecordAdded(o, w.vms, qid, found);
    }
  }

  /** The loop takes the first event, and its handler runs, among all the objects. */
  method Take(t: Tables, ghost o: Objects, ghost id: Id)
    requires Apart(o) && id in o.ctxs && t.events != [] && t.events[0].0 == o.ctxs[id]
    modifies t`events, t.events[0].0
    ensures t.events == old(t.events[1..]) && t.View() == old(t.View()) && Slots(o.vms) == old(Slots(o.vms))
    ensures Views(o.ctxs) == old(Views(o.ctxs))[id := OnEvent(old(o.ctxs[id].View()), old(t.events[0].1))]
  {
    hide OnError, OnResult;
    var (ctx, e) := t.events[0];
    t.events := t.events[1..];
    if e == ErrorEvent {
      ctx.ErrorHandler();
    } else {
      ctx.ResultHandler();
    }
  }

  lemma FirstEvent(t: Tables, o: Objects, w: World)
    requires StandsFor(t, o, w) && w.queue != []
    ensures t.events != [] && w.queue[0].0 in o.ctxs && t.events[0] == (o.ctxs[w.queue[0].0], w.queue[0].1)
    ensures t.events[0].0.View() == w.ctxs[w.queue[0].0]
    ensures SameEvents(t.events[1..], o.ctxs, w.queue[1..])
  {
    assert w.queue[0].0 in Views(o.ctxs);
  }

  /** The same, on the objects that stand for a world. */
  method TakeEvent(t: Tables, ghost o: Objects, ghost w: World)
    requires StandsFor(t, o, w) && Enabled(w, HandleEvent) && t.events != []
    modifies t`events, t.events[0].0
    ensures StandsFor(t, o, Next(w, HandleEvent))
  {
    FirstEvent(t, o, w);
    hide OnEvent, Views, Slots, SlotsOf, Apart, SameEvents, SameEntries;
    Take(t, o, w.queue[0].0);
    SameWorld(t, o, w);
  }

  lemma SameWorld(t: Tables, o: Objects, w: World)
    requires Enabled(w, HandleEvent)
    requires Apart(o) && Slots(o.vms) == SlotsOf(w.vms) && SameEntries(t.View(), o.vms, w)
    requires Views(o.ctxs) == w.ctxs[w.queue[0].0 := OnEvent(w.ctxs[w.queue[0].0], w.queue[0].1)]
    requires SameEvents(t.events, o.ctxs, w.queue[1..])
    ensures StandsFor(t, o, Next(w, HandleEvent))
  {
    hide OnEvent, Views, Slots, SlotsOf, Apart, SameEvents;
  }

  /** CTX_CB_ADD */
  method AddCallback(t: Tables, ghost o: Objects, ghost w: World, ghost id: Id, ctx: Context, cb: Cb)
    requires StandsFor(t, o, w) && Enabled(w, AddCb(id, cb)) && id in o.ctxs && ctx == o.ctxs[id]
    modifies ctx
    ensures StandsFor(t, o, Next(w, AddCb(id, cb)))
  {
    assert ctx.View() == Views(o.ctxs)[id];
    ctx.CbAdd(cb);
    assert Views(o.ctxs) == w.ctxs[id := w.ctxs[id].Add(cb)];
  }

  /** NEXT_CB */
  method HandOn(t: Tables, ghost o: Objects, ghost w: World, ghost id: Id, ctx: Context, ret: bool)
    requires StandsFor(t, o, w) && Enabled(w, NextCb(id, ret)) && id in o.ctxs && ctx == o.ctxs[id]
    modifies ctx
    ensures StandsFor(t, o, Next(w, NextCb(id, ret)))
  {
    hide RunNext;
    assert ctx.View() == Views(o.ctxs)[id];
    ctx.NextCb(ret);
    assert Views(o.ctxs) == w.ctxs[id := RunNext(w.ctxs[id], ret)];
  }

  /** A query that a method makes. */
  method Query(t: Tables, ghost o: Objects, ghost w: World, qid: Qid, ghost id: Id, typed: bool, h: Option<Handler>)
    requires StandsFor(t, o, w) && Enabled(w, Issue(qid, id, typed, h))
    modifies t`typeCbs, t`dbCbs
    ensures StandsFor(t, o, Next(w, Issue(qid, id, typed, h)))
  {
    hide Views, Slots, SlotsOf, Apart, SameEvents;
    t.Register(qid, typed, h);
  }
}
