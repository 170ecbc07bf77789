/** Fetching one VM, over every run of the call engine: a query for the VM itself, then two more
    whose answers are put together in whichever order they come. */
module VmAssembly {
  import opened Options
  import opened VmLists
  import opened Engine
  import opened EngineRuns

  /** The VM and the list that an unanswered query is for. */
  ghost predicate Asks(w: World, q: Qid, vm: Qid, kind: Kind) {
    q in w.dbCbs && w.dbCbs[q] == ListHandler(kind) && q in w.params && w.params[q] == vm
  }

  ghost predicate HasResult(a: Assembly, kind: Kind) {
    exists i :: 0 <= i < |a.results| && a.results[i].0 == kind
  }

  lemma ArriveHas(a: Assembly, kind: Kind, result: seq<Item>, k: Kind)
    ensures HasResult(Arrive(a, kind, result), k) <==> k == kind || HasResult(a, k)
  {
    ArriveRecords(a, kind, result);
    var b := Arrive(a, kind, result);
    hide Arrive;
    assert b.results[|a.results|].0 == kind;
    assert forall i :: 0 <= i < |a.results| ==> b.results[i] == a.results[i];
  }

  /** A query is unanswered only for a result that is not in yet, and no two are for the same one. */
  ghost predicate ListsInv(w: World) {
    && (forall vm :: vm in w.vms ==> Assembled(w.vms[vm]))
    && (forall q, vm, kind :: Asks(w, q, vm, kind) && vm in w.vms ==> !HasResult(w.vms[vm], kind))
    && (forall q, r, vm, kind :: Asks(w, q, vm, kind) && Asks(w, r, vm, kind) ==> q == r)
  }

  lemma ArriveKeeps(a: Assembly, kind: Kind, result: seq<Item>)
    requires Assembled(a) && !HasResult(a, kind)
    ensures Assembled(Arrive(a, kind, result))
    ensures forall k :: HasResult(Arrive(a, kind, result), k) <==> k == kind || HasResult(a, k)
  {
    assert forall i :: 0 <= i < |a.results| ==> a.results[i].0 != kind;
    ArriveKeepsAssembled(a, kind, result);
    forall k {
      ArriveHas(a, kind, result, k);
    }
  }

  /** A list arrives. */
  lemma ArrivalKeeps(w: World, qid: Qid, ans: Answer, c: Ctx, effect: Effect)
    requires ListsInv(w) && qid in w.outstanding && w.outstanding[qid] in w.ctxs && Brings(w, qid, ans)
    ensures ListsInv(Close(w, qid, ans, c, effect))
  {
    hide Arrive, Assembled, HasResult;
    var vm, kind := w.params[qid], w.dbCbs[qid].kind;
    var w1 := Close(w, qid, ans, c, effect);
    assert Asks(w, qid, vm, kind);
    ArriveKeeps(w.vms[vm], kind, ans.list);
    assert forall q, v, k :: Asks(w1, q, v, k) ==> Asks(w, q, v, k) && q != qid;
    forall q, v, k | Asks(w1, q, v, k) && v in w1.vms ensures !HasResult(w1.vms[v], k) {
      if v == vm {
        assert Asks(w, q, vm, k);
        assert k != kind;
      }
    }
  }

  /** No list arrives: the query is gone, and a VM may have been found. */
  lemma OtherKeeps(w: World, qid: Qid, ans: Answer, c: Ctx, effect: Effect)
    requires ListsInv(w) && TablesOk(w) && qid in w.outstanding && !Brings(w, qid, ans)
    ensures var w1 := Close(w, qid, ans, c, effect);
            && ListsInv(w1)
            && (HandlerOf(w, qid) == Some(VmHandler) && effect == Kept ==>
                  qid in w1.vms && w1.vms[qid] == Begun() && forall q, kind :: !Asks(w1, q, qid, kind))
  {
    var w1 := Close(w, qid, ans, c, effect);
    assert Assembled(Begun()) && forall k :: !HasResult(Begun(), k);
    hide Assembled, HasResult, Begun;
    forall q, v, k | Asks(w1, q, v, k) ensures Asks(w, q, v, k) && v != qid {
      assert ForList(w, q);
    }
  }

  lemma AsksAfterOpen(w: World, id: Id, more: map<Qid, Handler>, vm: Qid, q: Qid, v: Qid, k: Kind)
    requires TablesOk(w) && forall q :: q in more ==> q !in w.issued
    ensures Asks(Open(w, id, more, vm), q, v, k) <==>
              if q in more then more[q] == ListHandler(k) && v == vm else Asks(w, q, v, k)
    ensures Asks(w, q, v, k) ==> q !in more
  {
    hide ListsOk;
  }

  lemma OpenKeeps(w: World, id: Id, more: map<Qid, Handler>, vm: Qid)
    requires ListsInv(w) && TablesOk(w) && forall q :: q in more ==> q !in w.issued
    requires forall q, r :: q in more && r in more && more[q] == more[r] ==> q == r
    requires (forall q :: q in more ==> !more[q].ListHandler?)
             || (vm in w.vms && w.vms[vm] == Begun() && forall q, kind :: !Asks(w, q, vm, kind))
    ensures ListsInv(Open(w, id, more, vm))
  {
    var w1 := Open(w, id, more, vm);
    assert w1.vms == w.vms && forall k :: !HasResult(Begun(), k);
    hide Assembled, HasResult, Begun, Open, TablesOk, Asks;
    forall q, v, k | Asks(w1, q, v, k) && v in w1.vms ensures !HasResult(w1.vms[v], k) {
      AsksAfterOpen(w, id, more, vm, q, v, k);
    }
    forall q, r, v, k | Asks(w1, q, v, k) && Asks(w1, r, v, k) ensures q == r {
      AsksAfterOpen(w, id, more, vm, q, v, k);
      AsksAfterOpen(w, id, more, vm, r, v, k);
    }
  }

  ghost predicate Inv(w: World) { TablesOk(w) && ListsInv(w) }

  lemma FollowIsApart(h: Option<Handler>, effect: Effect, first: Option<Qid>, second: Option<Qid>)
    requires first.Some? && second.Some? ==> first != second
    ensures var more := Follow(h, effect, first, second);
            && (forall q, r :: q in more && r in more && more[q] == more[r] ==> q == r)
            && (h != Some(VmHandler) || effect != Kept ==> forall q :: q in more ==> !more[q].ListHandler?)
  {
  }

  lemma AnswerKeepsInv(w: World, qid: Qid, ans: Answer, first: Option<Qid>, second: Option<Qid>)
    requires Inv(w) && Enabled(w, AnswerQuery(qid, ans, first, second))
    ensures Inv(EventCb(w, qid, ans, first, second))
  {
    AnswerTables(w, qid, ans, first, second);
    var id := w.outstanding[qid];
    var (c, effect) := React(w, qid, ans, first, second);
    var w1, more := Close(w, qid, ans, c, effect), Follow(HandlerOf(w, qid), effect, first, second);
    FollowIsNew(w, HandlerOf(w, qid), effect, first, second);
    FollowIsApart(HandlerOf(w, qid), effect, first, second);
    CloseKeepsTables(w, qid, ans, c, effect);
    if Brings(w, qid, ans) {
      ArrivalKeeps(w, qid, ans, c, effect);
    } else {
      OtherKeeps(w, qid, ans, c, effect);
    }
    hide TablesOk, ListsInv, React, Follow, Close, Open, Asks;
    OpenKeeps(w1, id, more, qid);
  }

  lemma StepKeepsInv(w: World, s: Step)
    requires Inv(w) && Enabled(w, s)
    ensures Inv(Next(w, s))
  {
    match s
    case AnswerQuery(qid, ans, first, second) => AnswerKeepsInv(w, qid, ans, first, second);
    case _ =>
      TablesStep(w, s);
      OthersKeep(w, s);
  }

  lemma OthersKeep(w: World, s: Step)
    requires Inv(w) && Enabled(w, s) && !s.AnswerQuery?
    ensures ListsInv(Next(w, s))
  {
    hide Assembled, HasResult, ListsOk, EventCb, OnEvent;
    var w1 := Next(w, s);
    assert forall q, v, k :: Asks(w1, q, v, k) ==> Asks(w, q, v, k);
  }

  lemma {:induction false} RunKeepsInv(w: World, run: seq<Step>, w': World)
    requires Inv(w) && Reaches(w, run, w')
    ensures Inv(w')
    decreases |run|
  {
    if run != [] {
      hide Next, Inv;
      StepKeepsInv(w, run[0]);
      RunKeepsInv(Next(w, run[0]), run[1..], w');
    }
  }

  /** Over every run, for every VM that was found and both answer orders: the VM is handed on at most
      once, and exactly when both results are in; the list that came first is handed on as it was
      found, and the one that came last is too if and only if it is not empty. */
  lemma DeliveredOnce(w: World, run: seq<Step>, w': World, vm: Qid)
    requires Initial(w) && Reaches(w, run, w') && vm in w'.vms
    ensures var a := w'.vms[vm];
            && |a.delivered| <= 1 && (|a.delivered| == 1 <==> |a.results| == 2)
            && (|a.delivered| == 1 ==>
                  var ((k1, r1), (k2, r2)) := (a.results[0], a.results[1]);
                  var (disks, vifs) := a.delivered[0];
                  var (first, last) := if k1 == Disks then (disks, vifs) else (vifs, disks);
                  && k1 != k2 && first == Exact(r1) && last == Store(r2)
                  && (last == Exact(r2) <==> r2 != []))
  {
    InitialTables(w);
    RunKeepsInv(w, run, w');
    assert Assembled(w'.vms[vm]);
    hide Reaches, Initial, Inv;
  }

  /** What the answer that brings a list does: it is kept if it is the VM's first, and if it is the
      second the VM goes to the context as an exec answer without an error would. */
  lemma ListAnswer(w: World, qid: Qid, ans: Answer, first: Option<Qid>, second: Option<Qid>)
    requires Enabled(w, AnswerQuery(qid, ans, first, second)) && Inv(w) && Brings(w, qid, ans)
    ensures var (w1, id, vm, kind) := (EventCb(w, qid, ans, first, second), w.outstanding[qid], w.params[qid], w.dbCbs[qid].kind);
            var (c, effect) := React(w, qid, ans, first, second);
            && w1.vms[vm].results == w.vms[vm].results + [(kind, ans.list)]
            && (effect == Kept <==> w.vms[vm].results == [])
            && (effect == Kept ==> w1.vms[vm].delivered == [] && c == w.ctxs[id].(state := false))
            && (effect != Kept ==> |w1.vms[vm].delivered| == 1 && (c, effect) == Deliver(w.ctxs[id].(state := false), true, true))
  {
    var vm, kind, a := w.params[qid], w.dbCbs[qid].kind, w.vms[w.params[qid]];
    assert Asks(w, qid, vm, kind) && !HasResult(a, kind);
    ArriveDelivers(a, kind, ans.list);
    DispatchList(w.ctxs[w.outstanding[qid]], qid in w.typeCbs, kind, ans, EnvOf(w, qid, first, second));
    hide Dispatch, Deliver, Follow, Arrive, Inv;
  }

  lemma DispatchList(c: Ctx, typed: bool, kind: Kind, ans: Answer, env: Env)
    requires !Bad(c, typed, ans)
    ensures Dispatch(c, typed, Some(ListHandler(kind)), ans, env) == HandleList(c.(state := false), env)
  {
  }

  lemma ArriveDelivers(a: Assembly, kind: Kind, result: seq<Item>)
    requires Assembled(a) && !HasResult(a, kind)
    ensures var b := Arrive(a, kind, result);
            && b.results == a.results + [(kind, result)]
            && (a.results == [] <==> a.Other(kind) == Null)
            && |b.delivered| == if a.results == [] then 0 else 1
  {
    assert forall i :: 0 <= i < |a.results| ==> a.results[i].0 != kind;
    ArriveKeepsAssembled(a, kind, result);
  }

  // ---- A VM that has been found is delivered ----

  /** The answer was turned into an error event. */
  ghost predicate ErrorFor(history: seq<Reaction>, q: Qid) {
    exists i :: 0 <= i < |history| && history[i].qid == q && history[i].effect == Posted(ErrorEvent)
  }

  /** The query for one of the VM's lists is unanswered, or its result is in, or its answer was bad. */
  ghost predicate Settled(w: World, q: Qid, vm: Qid, kind: Kind) {
    && vm in w.vms && q in w.issued
    && ((q in w.outstanding && Asks(w, q, vm, kind)) || HasResult(w.vms[vm], kind) || ErrorFor(w.history, q))
  }

  /** The answer finds a VM. */
  ghost predicate Finds(w: World, s: Step) {
    && Enabled(w, s) && s.AnswerQuery? && HandlerOf(w, s.qid) == Some(VmHandler)
    && React(w, s.qid, s.answer, s.first, s.second).1 == Kept
  }

  lemma ErrorStays(history: seq<Reaction>, r: Reaction, q: Qid)
    requires ErrorFor(history, q)
    ensures ErrorFor(history + [r], q)
  {
    var i :| 0 <= i < |history| && history[i].qid == q && history[i].effect == Posted(ErrorEvent);
    assert (history + [r])[i] == history[i];
  }

  /** The query's own answer: its result is in, or it was bad. */
  lemma OwnAnswerSettles(w: World, s: Step, vm: Qid, kind: Kind)
    requires Inv(w) && Enabled(w, s) && s.AnswerQuery? && Asks(w, s.qid, vm, kind) && vm in w.vms
    ensures Settled(Next(w, s), s.qid, vm, kind)
  {
    var (c, effect) := React(w, s.qid, s.answer, s.first, s.second);
    var w1 := EventCb(w, s.qid, s.answer, s.first, s.second);
    AnswerMoves(w, s.qid, s.answer, s.first, s.second);
    assert w1.history[|w.history|] == Reaction(s.qid, w.outstanding[s.qid], effect);
    assert ForList(w, s.qid);
    AnswerTables(w, s.qid, s.answer, s.first, s.second);
    if Brings(w, s.qid, s.answer) {
      ArriveHas(w.vms[vm], kind, s.answer.list, kind);
    } else {
      assert Bad(w.ctxs[w.outstanding[s.qid]], s.qid in w.typeCbs, s.answer);
      assert effect == Posted(ErrorEvent);
      assert ErrorFor(w1.history, s.qid);
    }
    hide React, Follow, Arrive, HasResult, EventCb, Inv;
  }

  /** The tables after an answer: another query's entry stays. */
  lemma EntryStays(w: World, s: Step, q: Qid, vm: Qid, kind: Kind)
    requires TablesOk(w) && Enabled(w, s) && s.AnswerQuery? && s.qid != q && q in w.outstanding && Asks(w, q, vm, kind)
    ensures var w1 := Next(w, s); q in w1.outstanding && Asks(w1, q, vm, kind)
  {
    var (c, effect) := React(w, s.qid, s.answer, s.first, s.second);
    var more := Follow(HandlerOf(w, s.qid), effect, s.first, s.second);
    FollowIsNew(w, HandlerOf(w, s.qid), effect, s.first, s.second);
    assert q in w.issued && q !in more;
    hide React, Follow, Fetched, ListsOk;
    var w1 := Close(w, s.qid, s.answer, c, effect);
    assert q in w1.outstanding && Asks(w1, q, vm, kind);
  }

  lemma ResultStays(w: World, s: Step, vm: Qid, kind: Kind)
    requires TablesOk(w) && Enabled(w, s) && s.AnswerQuery? && vm in w.vms && HasResult(w.vms[vm], kind)
    ensures var w1 := Next(w, s); vm in w1.vms && HasResult(w1.vms[vm], kind)
  {
    AnswerMoves(w, s.qid, s.answer, s.first, s.second);
    if Brings(w, s.qid, s.answer) {
      ArriveHas(w.vms[w.params[s.qid]], w.dbCbs[s.qid].kind, s.answer.list, kind);
    }
    assert vm != s.qid;
    hide React, Follow, Arrive, HasResult, EventCb, Bad;
  }

  lemma VmStays(w: World, s: Step, vm: Qid)
    requires Enabled(w, s) && vm in w.vms
    ensures vm in Next(w, s).vms && w.issued.Keys <= Next(w, s).issued.Keys
  {
    if s.AnswerQuery? {
      AnswerMoves(w, s.qid, s.answer, s.first, s.second);
      hide React, Follow, Arrive, Bad;
    }
  }

  lemma StepKeepsSettled(w: World, s: Step, q: Qid, vm: Qid, kind: Kind)
    requires Inv(w) && Enabled(w, s) && Settled(w, q, vm, kind)
    ensures Settled(Next(w, s), q, vm, kind)
  {
    VmStays(w, s, vm);
    if s.AnswerQuery? {
      if s.qid == q && Asks(w, q, vm, kind) {
        OwnAnswerSettles(w, s, vm, kind);
      } else if ErrorFor(w.history, q) {
        AnswerMoves(w, s.qid, s.answer, s.first, s.second);
        hide React, Follow, EventCb, HasResult, Asks;
        ErrorStays(w.history, Reaction(s.qid, w.outstanding[s.qid], React(w, s.qid, s.answer, s.first, s.second).1), q);
      } else if HasResult(w.vms[vm], kind) {
        hide Next, HasResult;
        ResultStays(w, s, vm, kind);
      } else {
        hide Next, HasResult;
        EntryStays(w, s, q, vm, kind);
      }
    } else {
      hide HasResult, ErrorFor, ListsInv, TablesOk, OnEvent, EventCb;
    }
  }

  lemma {:induction false} RunKeepsSettled(w: World, run: seq<Step>, w': World, q: Qid, vm: Qid, kind: Kind)
    requires Inv(w) && Reaches(w, run, w') && Settled(w, q, vm, kind)
    ensures Settled(w', q, vm, kind) && Inv(w')
    decreases |run|
  {
    if run != [] {
      hide Next, Inv, Settled;
      StepKeepsInv(w, run[0]);
      StepKeepsSettled(w, run[0], q, vm, kind);
      RunKeepsSettled(Next(w, run[0]), run[1..], w', q, vm, kind);
    }
  }

  /** Both lists of a VM that has been found are asked for, as far as the queries can be created. */
  lemma FindingAsks(w: World, s: Step)
    requires Inv(w) && Finds(w, s)
    ensures s.first.Some? ==> Settled(Next(w, s), s.first.value, s.qid, Disks)
    ensures s.second.Some? ==> Settled(Next(w, s), s.second.value, s.qid, Vifs)
  {
    AnswerMoves(w, s.qid, s.answer, s.first, s.second);
    FollowBoth(s.first, s.second);
    hide React, Follow, EventCb, HasResult, ErrorFor, ListsInv, TablesOk, Bad;
    assert !ForList(w, s.qid);
    var w1, more := Next(w, s), Follow(HandlerOf(w, s.qid), Kept, s.first, s.second);
    assert s.qid in w1.vms;
    if s.first.Some? {
      Entered(w1, more, s.first.value, s.qid, Disks);
    }
    if s.second.Some? {
      Entered(w1, more, s.second.value, s.qid, Vifs);
    }
  }

  lemma Entered(w: World, more: map<Qid, Handler>, q: Qid, vm: Qid, kind: Kind)
    requires q in more && more[q] == ListHandler(kind) && vm in w.vms
    requires q in w.outstanding && q in w.issued && q in w.dbCbs && w.dbCbs[q] == more[q]
    requires q in w.params && w.params[q] == Named(more, vm)[q]
    ensures Settled(w, q, vm, kind)
  {
  }

  lemma FollowBoth(first: Option<Qid>, second: Option<Qid>)
    requires first.Some? && second.Some? ==> first != second
    ensures var more := Follow(Some(VmHandler), Kept, first, second);
            && (first.Some? ==> first.value in more && more[first.value] == ListHandler(Disks))
            && (second.Some? ==> second.value in more && more[second.value] == ListHandler(Vifs))
  {
  }

  /** In every state that is reached after a VM has been found, each of its lists has arrived, or
      exactly one unanswered query asks for it, or the answer to its query was bad, or its query
      could not be created. */
  lemma BothListsAreSought(w: World, s: Step, run: seq<Step>, w': World)
    requires Inv(w) && Finds(w, s) && Reaches(Next(w, s), run, w')
    ensures s.first.Some? ==> Settled(w', s.first.value, s.qid, Disks)
    ensures s.second.Some? ==> Settled(w', s.second.value, s.qid, Vifs)
    ensures Inv(w') && forall q, r, kind :: Asks(w', q, s.qid, kind) && Asks(w', r, s.qid, kind) ==> q == r
  {
    FindingAsks(w, s);
    StepKeepsInv(w, s);
    RunKeepsInv(Next(w, s), run, w');
    hide Next, Settled, TablesOk, Finds;
    if s.first.Some? {
      RunKeepsSettled(Next(w, s), run, w', s.first.value, s.qid, Disks);
    }
    if s.second.Some? {
      RunKeepsSettled(Next(w, s), run, w', s.second.value, s.qid, Vifs);
    }
  }

  /** So a VM that was found, both of whose queries were created and have been answered well, has
      been handed on exactly once. */
  lemma FoundIsDelivered(w: World, s: Step, run: seq<Step>, w': World)
    requires Inv(w) && Finds(w, s) && Reaches(Next(w, s), run, w') && s.first.Some? && s.second.Some?
    requires forall q :: q == s.first.value || q == s.second.value ==> q !in w'.outstanding && !ErrorFor(w'.history, q)
    ensures s.qid in w'.vms && |w'.vms[s.qid].results| == 2 && |w'.vms[s.qid].delivered| == 1
  {
    BothListsAreSought(w, s, run, w');
    hide Reaches, Finds, ErrorFor, TablesOk, HasResult, Assembled;
    BothAreTwo(w'.vms[s.qid]);
  }

  lemma BothAreTwo(a: Assembly)
    requires Assembled(a) && HasResult(a, Disks) && HasResult(a, Vifs)
    ensures |a.results| == 2 && |a.delivered| == 1
  {
  }

  /** An answer finds a VM if and only if it is a good one with a row, and no error stands. */
  lemma FindsExactly(w: World, s: Step)
    requires Enabled(w, s) && s.AnswerQuery? && HandlerOf(w, s.qid) == Some(VmHandler)
    ensures var c := w.ctxs[w.outstanding[s.qid]];
            Finds(w, s) <==> !Bad(c, s.qid in w.typeCbs, s.answer) && s.answer.rows > 0 && c.error == NoError
    ensures Finds(w, s) ==> s.qid in Next(w, s).vms && Next(w, s).vms[s.qid] == Begun()
  {
    DispatchCases(w.ctxs[w.outstanding[s.qid]], s.qid in w.typeCbs, HandlerOf(w, s.qid), s.answer,
                  EnvOf(w, s.qid, s.first, s.second));
    AnswerMoves(w, s.qid, s.answer, s.first, s.second);
    hide Dispatch, EventCb, EnvOf, Arrive;
  }

  /** Every VM of a reachable state was found by an answer on the way. */
  lemma {:induction false} WasFound(w: World, run: seq<Step>, w': World, vm: Qid) returns (k: nat, w1: World)
    requires Reaches(w, run, w') && vm in w'.vms && vm !in w.vms
    ensures k < |run| && Reaches(w, run[..k], w1) && run[k].AnswerQuery? && run[k].qid == vm && Finds(w1, run[k])
    ensures Reaches(Next(w1, run[k]), run[k + 1..], w')
    decreases |run|
  {
    hide Next, Finds;
    if vm in Next(w, run[0]).vms {
      FoundNow(w, run[0], vm);
      k, w1 := 0, w;
      assert run[..0] == [] && run[0 + 1..] == run[1..];
    } else {
      var n;
      n, w1 := WasFound(Next(w, run[0]), run[1..], w', vm);
      k := n + 1;
      assert run[..k][1..] == run[1..][..n] && run[..k][0] == run[0];
      assert run[1..][n + 1..] == run[k + 1..];
    }
  }

  lemma FoundNow(w: World, s: Step, vm: Qid)
    requires Enabled(w, s) && vm !in w.vms && vm in Next(w, s).vms
    ensures s.AnswerQuery? && s.qid == vm && Finds(w, s)
  {
    if s.AnswerQuery? {
      AnswerMoves(w, s.qid, s.answer, s.first, s.second);
      hide React, EventCb, Arrive, Follow;
    } else {
      hide EventCb, OnEvent;
    }
  }
}
