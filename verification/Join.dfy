/** Fork and join by a shared counter, and the listing of full VMs built on it. */
module Join {

  /** The parent's side of a join: the children run while count > base, and the one that brings
      it down to base rewinds and resumes the parent. */
  datatype Counter = Counter(count: int, base: int, resumes: nat)
  {
    /** if (--count == base) { rewind; resume; } */
    function Exit(): Counter {
      Counter(count - 1, base, if count - 1 == base then resumes + 1 else resumes)
    }
  }

  function Fork(base: int, n: nat): Counter {
    Counter(base + n, base, 0)
  }

  /** The number of elements that satisfy p. */
  function Count<T>(s: seq<T>, p: T -> bool): (n: nat)
    ensures n <= |s|
  {
    if s == [] then 0 else Count(s[..|s| - 1], p) + if p(s[|s| - 1]) then 1 else 0
  }

  lemma {:induction false} CountUpdate<T>(s: seq<T>, p: T -> bool, i: nat, x: T)
    requires i < |s|
    ensures Count(s[i := x], p) == Count(s, p) - (if p(s[i]) then 1 else 0) + (if p(x) then 1 else 0)
  {
    var last := |s| - 1;
    if i < last {
      CountUpdate(s[..last], p, i, x);
      assert s[i := x][..last] == s[..last][i := x];
    } else {
      assert s[i := x][..last] == s[..last];
    }
  }

  lemma {:induction false} CountZero<T>(s: seq<T>, p: T -> bool)
    ensures Count(s, p) == 0 <==> forall i :: 0 <= i < |s| ==> !p(s[i])
  {
    if s != [] {
      CountZero(s[..|s| - 1], p);
    }
  }

  lemma {:induction false} CountAll<T>(s: seq<T>, p: T -> bool)
    requires forall i :: 0 <= i < |s| ==> p(s[i])
    ensures Count(s, p) == |s|
  {
    if s != [] {
      CountAll(s[..|s| - 1], p);
    }
  }

  /** The sum of the ranks. */
  function Total<T>(s: seq<T>, rank: T -> nat): nat {
    if s == [] then 0 else Total(s[..|s| - 1], rank) + rank(s[|s| - 1])
  }

  lemma {:induction false} TotalUpdate<T>(s: seq<T>, rank: T -> nat, i: nat, x: T)
    requires i < |s|
    ensures Total(s[i := x], rank) == Total(s, rank) - rank(s[i]) + rank(x)
  {
    var last := |s| - 1;
    if i < last {
      TotalUpdate(s[..last], rank, i, x);
      assert s[i := x][..last] == s[..last][i := x];
    } else {
      assert s[i := x][..last] == s[..last];
    }
  }

  lemma {:induction false} TotalConstant<T>(s: seq<T>, rank: T -> nat, r: nat)
    requires forall i :: 0 <= i < |s| ==> rank(s[i]) == r
    ensures Total(s, rank) == r * |s|
  {
    if s != [] {
      TotalConstant(s[..|s| - 1], rank, r);
    }
  }

  /** The join invariant: the counter is the base plus the live children, and the parent has
      been resumed exactly when none is left. */
  ghost predicate Joined<T>(c: Counter, children: seq<T>, live: T -> bool) {
    && c.count == c.base + Count(children, live)
    && c.resumes == if Count(children, live) == 0 then 1 else 0
  }

  lemma ForkJoined<T>(base: int, children: seq<T>, live: T -> bool)
    requires children != [] && forall i :: 0 <= i < |children| ==> live(children[i])
    ensures Joined(Fork(base, |children|), children, live)
  {
    CountAll(children, live);
  }

  /** One child changes and stays live, or exits through the counter: for any base. */
  lemma JoinStep<T>(c: Counter, children: seq<T>, live: T -> bool, i: nat, x: T)
    requires Joined(c, children, live) && i < |children| && live(children[i])
    ensures Joined(if live(x) then c else c.Exit(), children[i := x], live)
  {
    CountUpdate(children, live, i, x);
  }

  /** What the invariant says of the parent: resumed at most once, exactly when every child is
      gone, and then its count stands at the base, so that it goes on at the stage of that number. */
  lemma JoinMeans<T>(c: Counter, children: seq<T>, live: T -> bool)
    requires Joined(c, children, live)
    ensures c.resumes <= 1
    ensures c.resumes == 1 <==> forall i :: 0 <= i < |children| ==> !live(children[i])
    ensures if c.resumes == 1 then c.count == c.base else c.count > c.base
  {
    CountZero(children, live);
  }
}

/** _getVMsFull and its kin: one sub-context per VM, collected by the parent. */
module FullFetch {
  import opened Join
  import opened Options

  type Vm = nat

  /** A sub-context of vm_cb_getvm. A child is stuck when its query failed in the database, or
      when it was handed no VM and no error either. */
  datatype Child =
    | Queued | Waiting | Returned(vm: Option<Vm>, error: bool) | Exited | Stuck

  predicate Live(c: Child) { !c.Exited? }

  predicate Settled(c: Child) { c.Exited? || c.Stuck? }

  datatype Fetch = Fetch(counter: Counter, retval: seq<Vm>, children: seq<Child>)

  datatype Step =
    | Start(i: nat, issued: bool)
    | Answer(i: nat, vm: Option<Vm>, error: bool)
    | Fail(i: nat)
    | Finish(i: nat)

  predicate Enabled(f: Fetch, s: Step) {
    && s.i < |f.children|
    && match s
       case Start(i, _) => f.children[i].Queued?
       case Answer(i, _, _) => f.children[i].Waiting?
       case Fail(i) => f.children[i].Waiting?
       case Finish(i) => f.children[i].Returned?
  }

  /** vm_cb_getvm run as a job: the new state of the child and what it appends to the parent's list.
      issued says whether getVM could create its query. */
  function RunJob(c: Child, issued: bool): (Child, seq<Vm>)
    requires c.Queued? || c.Returned?
  {
    if c.Queued? then (if issued then Waiting else Exited, [])
    else if c.error then (Exited, [])
    else if c.vm.None? then (Stuck, [])
    else (Exited, [c.vm.value])
  }

  /** vm_cb_getallvmsfull, count 1, with a list of VMs: the counter goes from 1 to n + 2. */
  function Begin(n: nat): Fetch {
    Fetch(Fork(2, n), [], seq(n, _ => Queued))
  }

  function Move(f: Fetch, i: nat, c: Child, more: seq<Vm>): Fetch
    requires i < |f.children|
  {
    Fetch(if Live(c) then f.counter else f.counter.Exit(), f.retval + more, f.children[i := c])
  }

  function Next(f: Fetch, s: Step): Fetch
    requires Enabled(f, s)
  {
    match s
    case Start(i, issued) => var (c, more) := RunJob(f.children[i], issued); Move(f, i, c, more)
    case Answer(i, vm, error) => Move(f, i, Returned(vm, error), [])
    case Fail(i) => Move(f, i, Stuck, [])
    case Finish(i) => var (c, more) := RunJob(f.children[i], true); Move(f, i, c, more)
  }

  ghost predicate Reaches(f: Fetch, run: seq<Step>, g: Fetch)
    decreases |run|
  {
    if run == [] then f == g else Enabled(f, run[0]) && Reaches(Next(f, run[0]), run[1..], g)
  }

  /** The VMs that were fetched: the answers of a run with a VM and without an error. */
  function Found(run: seq<Step>): multiset<Vm> {
    if run == [] then multiset{} else FoundBy(run[0]) + Found(run[1..])
  }

  function FoundBy(s: Step): multiset<Vm> {
    if s.Answer? && s.vm.Some? && !s.error then multiset{s.vm.value} else multiset{}
  }

  /** The VMs that children have been handed and have not passed on yet. */
  function Held(children: seq<Child>): multiset<Vm> {
    if children == [] then multiset{} else Held(children[..|children| - 1]) + HeldBy(children[|children| - 1])
  }

  function HeldBy(c: Child): multiset<Vm> {
    if c.Returned? && c.vm.Some? && !c.error then multiset{c.vm.value} else multiset{}
  }

  lemma {:induction false} HeldUpdate(children: seq<Child>, i: nat, c: Child)
    requires i < |children|
    ensures Held(children[i := c]) + HeldBy(children[i]) == Held(children) + HeldBy(c)
  {
    hide HeldBy;
    var last := |children| - 1;
    var rest := children[..last];
    if i < last {
      HeldUpdate(rest, i, c);
      assert children[i := c][..last] == rest[i := c];
      Rearrange(Held(rest[i := c]), HeldBy(children[i]), Held(rest), HeldBy(c), HeldBy(children[last]));
    } else {
      assert children[i := c][..last] == rest;
      Commutes(Held(rest), HeldBy(c), HeldBy(children[i]));
    }
  }

  lemma Commutes(a: multiset<Vm>, b: multiset<Vm>, c: multiset<Vm>)
    ensures a + b + c == a + c + b
  {
  }

  lemma Rearrange(a: multiset<Vm>, x: multiset<Vm>, b: multiset<Vm>, y: multiset<Vm>, h: multiset<Vm>)
    requires a + x == b + y
    ensures a + h + x == b + h + y
  {
    Commutes(a, h, x);
    Commutes(b, h, y);
  }

  lemma {:induction false} NothingHeld(children: seq<Child>)
    requires forall i :: 0 <= i < |children| ==> !children[i].Returned?
    ensures Held(children) == multiset{}
  {
    if children != [] {
      NothingHeld(children[..|children| - 1]);
    }
  }

  /** What a child passes on and holds afterwards is what it held and what it found. */
  predicate Balanced(before: Child, after: Child, more: seq<Vm>, found: multiset<Vm>) {
    multiset(more) + HeldBy(after) == HeldBy(before) + found
  }

  lemma StepIsBalanced(f: Fetch, s: Step)
    requires Enabled(f, s)
    ensures var more := if s.Finish? then RunJob(f.children[s.i], true).1 else [];
            Balanced(f.children[s.i], Next(f, s).children[s.i], more, FoundBy(s))
  {
  }

  /** Then the parent's list and all that is held grow by what was found. */
  lemma Balance(f: Fetch, i: nat, c: Child, more: seq<Vm>, found: multiset<Vm>)
    requires i < |f.children| && Balanced(f.children[i], c, more, found)
    ensures var g := Move(f, i, c, more);
            multiset(g.retval) + Held(g.children) == multiset(f.retval) + Held(f.children) + found
  {
    HeldUpdate(f.children, i, c);
    hide Held, HeldBy;
    var h, h' := Held(f.children), Held(f.children[i := c]);
    assert multiset(f.retval + more) == multiset(f.retval) + multiset(more);
    forall v: Vm
      ensures (multiset(f.retval) + multiset(more) + h')[v] == (multiset(f.retval) + h + found)[v]
    {
      assert (h' + HeldBy(f.children[i]))[v] == (h + HeldBy(c))[v];
      assert (multiset(more) + HeldBy(c))[v] == (HeldBy(f.children[i]) + found)[v];
    }
  }

  lemma StepMoves(f: Fetch, s: Step)
    requires Enabled(f, s) && Joined(f.counter, f.children, Live)
    ensures var g := Next(f, s);
            && Joined(g.counter, g.children, Live) && g.counter.base == f.counter.base && |g.children| == |f.children|
            && multiset(g.retval) + Held(g.children) == multiset(f.retval) + Held(f.children) + FoundBy(s)
  {
    var c := Next(f, s).children[s.i];
    JoinStep(f.counter, f.children, Live, s.i, c);
    hide Joined, Held, Balanced;
    var more := if s.Finish? then RunJob(f.children[s.i], true).1 else [];
    assert Next(f, s) == Move(f, s.i, c, more);
    StepIsBalanced(f, s);
    hide Next, RunJob;
    Balance(f, s.i, c, more, FoundBy(s));
  }

  lemma {:induction false} RunMoves(f: Fetch, run: seq<Step>, g: Fetch)
    requires Joined(f.counter, f.children, Live) && Reaches(f, run, g)
    ensures Joined(g.counter, g.children, Live) && g.counter.base == f.counter.base && |g.children| == |f.children|
    ensures multiset(g.retval) + Held(g.children) == multiset(f.retval) + Held(f.children) + Found(run)
    decreases |run|
  {
    if run != [] {
      hide Joined, Next;
      StepMoves(f, run[0]);
      RunMoves(Next(f, run[0]), run[1..], g);
    }
  }

  /** Over every interleaving of n > 0 children: the parent is resumed at most once, exactly when
      all of them have exited, its count is then the 2 that its next stage is numbered, and its list
      is a permutation of the VMs that the queries found. Before that it holds all of those but the
      ones that a child has not passed on yet. */
  lemma FullListing(n: nat, run: seq<Step>, f: Fetch)
    requires n > 0 && Reaches(Begin(n), run, f)
    ensures f.counter.resumes <= 1
    ensures f.counter.resumes == 1 <==> forall i :: 0 <= i < |f.children| ==> f.children[i].Exited?
    ensures if f.counter.resumes == 1 then f.counter.count == 2 else f.counter.count > 2
    ensures f.counter.resumes == 1 ==> multiset(f.retval) == Found(run)
    ensures multiset(f.retval) + Held(f.children) == Found(run) && |f.children| == n
  {
    ForkJoined(2, seq(n, _ => Queued), Live);
    NothingHeld(Begin(n).children);
    RunMoves(Begin(n), run, f);
    JoinMeans(f.counter, f.children, Live);
    assert multiset(f.retval) + Held(f.children) == multiset{} + multiset{} + Found(run);
    if f.counter.resumes == 1 {
      NothingHeld(f.children);
      assert multiset(f.retval) + multiset{} == multiset(f.retval);
    }
  }

  /** A query of the child could not be created, or it was answered. */
  predicate Concerns(s: Step, i: nat) {
    s == Start(i, false) || (s.Answer? && s.i == i)
  }

  /** A child that has exited could not ask for its VM, or was answered. */
  lemma {:induction false} ExitedForAReason(f: Fetch, run: seq<Step>, g: Fetch, i: nat)
    requires i < |f.children| && !f.children[i].Exited? && !f.children[i].Returned? && Reaches(f, run, g)
    requires i < |g.children| && g.children[i].Exited?
    ensures exists k :: 0 <= k < |run| && Concerns(run[k], i)
    decreases |run|
  {
    if !Concerns(run[0], i) {
      var f1 := Next(f, run[0]);
      assert !f1.children[i].Exited? && !f1.children[i].Returned?;
      hide Next;
      ExitedForAReason(f1, run[1..], g, i);
      var k :| 0 <= k < |run[1..]| && Concerns(run[1..][k], i);
      assert run[k + 1] == run[1..][k];
    } else {
      assert Concerns(run[0], i);
    }
  }

  /** The child's query failed in the database, or it was answered with no VM and no error. */
  predicate Strands(s: Step, i: nat) {
    s == Fail(i) || s == Answer(i, None, false)
  }

  /** Only such an answer leaves a child stuck; one with an error lets it exit. */
  lemma {:induction false} StuckForAReason(f: Fetch, run: seq<Step>, g: Fetch, i: nat)
    requires i < |f.children| && Reaches(f, run, g) && i < |g.children| && g.children[i].Stuck?
    requires f.children[i].Queued? || f.children[i].Waiting? || f.children[i].Exited?
             || (f.children[i].Returned? && (f.children[i].error || f.children[i].vm.Some?))
    ensures exists k :: 0 <= k < |run| && Strands(run[k], i)
    decreases |run|
  {
    if !Strands(run[0], i) {
      var c := Next(f, run[0]).children[i];
      assert c.Queued? || c.Waiting? || c.Exited? || (c.Returned? && (c.error || c.vm.Some?));
      hide Next;
      StuckForAReason(Next(f, run[0]), run[1..], g, i);
      var k :| 0 <= k < |run[1..]| && Strands(run[1..][k], i);
      assert run[k + 1] == run[1..][k];
    } else {
      assert Strands(run[0], i);
    }
  }

  /** Every query can be created and is answered with a VM. */
  predicate Good(s: Step) {
    match s
    case Start(_, issued) => issued
    case Answer(_, vm, error) => vm.Some? && !error
    case Fail(_) => false
    case Finish(_) => true
  }

  /** What a child can be in a run in which every query goes well. */
  predicate WellOff(c: Child) {
    !c.Stuck? && (c.Returned? ==> c.vm.Some? && !c.error)
  }

  lemma {:induction false} GoodRun(f: Fetch, run: seq<Step>, g: Fetch)
    requires Reaches(f, run, g) && (forall k :: 0 <= k < |run| ==> Good(run[k]))
    requires forall i :: 0 <= i < |f.children| ==> WellOff(f.children[i])
    ensures |g.retval| + Count(g.children, Live) == |f.retval| + Count(f.children, Live)
    ensures forall i :: 0 <= i < |g.children| ==> WellOff(g.children[i])
    decreases |run|
  {
    if run != [] {
      assert Good(run[0]);
      var f1 := Next(f, run[0]);
      CountUpdate(f.children, Live, run[0].i, f1.children[run[0].i]);
      assert |f1.retval| + Count(f1.children, Live) == |f.retval| + Count(f.children, Live);
      hide Next, Count;
      GoodRun(f1, run[1..], g);
    }
  }

  /** When every query can be created and is answered with a VM, the list at the end has one for each
      of the n children. */
  lemma ListingIsComplete(n: nat, run: seq<Step>, f: Fetch)
    requires n > 0 && Reaches(Begin(n), run, f) && forall k :: 0 <= k < |run| ==> Good(run[k])
    requires forall s :: !Enabled(f, s)
    ensures f.counter.resumes == 1 && |f.retval| == n
  {
    GoodRun(Begin(n), run, f);
    CountAll(Begin(n).children, Live);
    ListingEnds(n, run, f);
    FullListing(n, run, f);
    CountZero(f.children, Live);
  }

  /** With no children the parent waits for ever: nothing can happen, and it was not resumed. */
  lemma NoChildren(run: seq<Step>, f: Fetch)
    requires Reaches(Begin(0), run, f)
    ensures run == [] && f.counter.resumes == 0
  {
  }

  predicate Blocked(f: Fetch) {
    forall i :: 0 <= i < |f.children| ==> Settled(f.children[i])
  }

  /** A run stops only when every child has exited or is stuck, and then the parent has been
      resumed if and only if none is stuck. */
  lemma ListingEnds(n: nat, run: seq<Step>, f: Fetch)
    requires n > 0 && Reaches(Begin(n), run, f)
    ensures Blocked(f) <==> forall s :: !Enabled(f, s)
    ensures Blocked(f) ==> (f.counter.resumes == 1 <==> forall i :: 0 <= i < |f.children| ==> !f.children[i].Stuck?)
  {
    FullListing(n, run, f);
    hide Reaches, Held, Found;
    BlockedMeans(f);
  }

  lemma BlockedMeans(f: Fetch)
    ensures Blocked(f) <==> forall s :: !Enabled(f, s)
  {
    if !Blocked(f) {
      var i :| 0 <= i < |f.children| && !Settled(f.children[i]);
      assert Enabled(f, Start(i, true)) || Enabled(f, Fail(i)) || Enabled(f, Finish(i));
    }
  }

  /** The steps a child still has before it. */
  function Rank(c: Child): nat {
    if c.Queued? then 3 else if c.Waiting? then 2 else if c.Returned? then 1 else 0
  }

  lemma {:induction false} RunIsBounded(f: Fetch, run: seq<Step>, g: Fetch)
    requires Reaches(f, run, g)
    ensures |run| + Total(g.children, Rank) <= Total(f.children, Rank)
    decreases |run|
  {
    if run != [] {
      var f1, i := Next(f, run[0]), run[0].i;
      TotalUpdate(f.children, Rank, i, f1.children[i]);
      RunIsBounded(f1, run[1..], g);
    }
  }

  /** Every listing ends: n children take at most 3n steps together. */
  lemma ListingIsBounded(n: nat, run: seq<Step>, f: Fetch)
    requires Reaches(Begin(n), run, f)
    ensures |run| <= 3 * n
  {
    TotalConstant(Begin(n).children, Rank, 3);
    RunIsBounded(Begin(n), run, f);
  }

  /** A sub-context, updated in place by vm_cb_getvm and cb_pointer_job. */
  class SubCtx {
    var count: nat
    var error: bool
    var vm: Option<Vm>
    var job: bool
    var freed: bool

    ghost function View(): Child
      reads this
    {
      if freed then Exited
      else if count == 0 then if job then Queued else Waiting
      else if job then Returned(vm, error) else Stuck
    }

    constructor ()
      ensures View() == Queued && count == 0 && !error && !freed
    {
      count, error, vm, job, freed := 0, false, None, true, false;
    }

    /** cb_pointer_job, behind the VM handlers. */
    method PointerJob(ret: Option<Vm>, failed: bool)
      requires View() == Waiting
      modifies this
      ensures View() == Returned(ret, failed) && count == 1
    {
      error := failed;
      count := count + 1;
      vm := ret;
      job := true;
    }
  }

  /** The parent context of a listing. */
  class Listing {
    var count: int
    var error: bool
    var retval: seq<Vm>
    var resumes: nat

    function Join(): Counter
      reads this
    {
      Counter(count, 2, resumes)
    }

    constructor ()
      ensures count == 1 && !error && retval == [] && resumes == 0
    {
      count, error, retval, resumes := 1, false, [], 0;
    }

    /** vm_cb_getallvmsfull, count 1: nothing on an error, an immediate answer when there is no VM. */
    method ForkAll(uuids: seq<Vm>) returns (children: seq<SubCtx>)
      requires count == 1 && resumes == 0
      modifies this
      ensures error == old(error) && retval == old(retval)
      ensures error ==> children == [] && count == 1 && resumes == 0
      ensures !error && uuids == [] ==> children == [] && count == 1 && resumes == 1
      ensures !error && uuids != [] ==> |children| == |uuids| && Join() == Fork(2, |uuids|)
      ensures forall i :: 0 <= i < |children| ==> fresh(children[i]) && children[i].View() == Queued
    {
      children := [];
      if error {
        return;
      } else if uuids == [] {
        resumes := resumes + 1;
        return;
      }
      count := count + |uuids|;
      for i := 0 to |uuids|
        invariant |children| == i
        invariant forall k :: 0 <= k < i ==> fresh(children[k]) && children[k].View() == Queued
        invariant count == 1 + |uuids| && resumes == 0 && error == old(error) && retval == old(retval)
      {
        var zctx := new SubCtx();
        children := children + [zctx];
      }
      count := count + 1;
    }

    /** vm_cb_getallvmsfull, count 2: the list goes to the client. */
    method TakeResult() returns (ret: seq<Vm>)
      modifies this`retval
      ensures ret == old(retval) && retval == []
    {
      ret := retval;
      retval := [];
    }

    /** vm_cb_getvm */
    method GetVm(ctx: SubCtx, issued: bool)
      requires ctx.job && !ctx.freed && ctx.count <= 1 && (ctx.count == 0 ==> !ctx.error)
      modifies this, ctx
      ensures var (c, more) := RunJob(old(ctx.View()), issued);
              && ctx.View() == c
              && retval == old(retval) + more
              && Join() == (if Live(c) then old(Join()) else old(Join()).Exit())
              && error == old(error)
    {
      ctx.job := false;
      var done := false;
      if ctx.count == 0 {
        if !issued {
          ctx.error := true;
        }
      } else if ctx.vm.Some? && !ctx.error {
        retval := retval + [ctx.vm.value];
        done := true;
      }
      if !done && !ctx.error {
        return;
      }
      ctx.freed := true;
      count := count - 1;
      if count == 2 {
        resumes := resumes + 1;
      }
    }
  }
}
