/** _updateVMs: one sub-context per VM, each running the stages of vm_cb_update, the sixth of
    which forks again; a join inside a join. */
module VmUpdate {
  import opened Join
  import opened Options
  import opened VmConfig

  datatype Error = NoError | Exists | Other

  /** What a VM handed in by a poller or a caller looks like to vm_cb_update. */
  datatype Input = Input(valid: bool, config: Config, disks: bool, vifs: bool)

  /** What the context does next: its job is queued, it waits for left answers before the job
      callback at the end of its chain runs, it waits for its own sub-contexts, it has been freed,
      or it is stuck because a query of its own failed in the database. */
  datatype Phase = Job | Waiting(left: nat) | Joining | Exited | Stuck

  /** The queries that vm_cb_update makes. */
  datatype Query =
    | CreateVm | SetVmState | UpdateVmTimestamp | UpdateVmParentNode | IsVmIgnored | GetVm
    | UpdateVmConfig | PruneVmStats | UpdateVmStats | SaveVmRevision

  /** A context of vm_cb_update. stored is what getVM left in the parameter table. The rest remembers
      what happened: entries how many sub-contexts had not exited, each time stage 7 was entered,
      forks how often stage 6 was, asked the queries that were made and answers how many of them were
      answered, and raised whether a sub-context asked for a revision. */
  datatype Vm = Vm(
    input: Input, ret: bool, count: int, error: Error, checked: bool, auth: bool, stored: Option<Config>,
    phase: Phase, subs: nat, entries: seq<nat>, forks: nat,
    asked: seq<Query>, answers: nat, raised: bool)

  function Start(input: Input, ret: bool): Vm {
    Vm(input, ret, 0, NoError, false, false, None, Job, 0, [], 0, [], 0, false)
  }

  function Forks(input: Input): nat {
    (if input.disks then 1 else 0) + (if input.vifs then 1 else 0)
  }

  /** What no stage changes: what was handed in, what was found, and that no query has failed. */
  predicate Kept(v: Vm, w: Vm) {
    w.input == v.input && w.ret == v.ret && w.stored == v.stored && (w.phase.Stuck? ==> v.phase.Stuck?)
  }

  /** Queries, and the end of the function: free the context on an error, else wait for the answers. */
  function Ask(v: Vm, queries: seq<Query>, ok: bool): (w: Vm)
    ensures Kept(v, w)
  {
    if ok && v.error == NoError then v.(asked := v.asked + queries, phase := Waiting(|queries|))
    else v.(asked := v.asked + queries, phase := Exited, error := if ok then v.error else Other)
  }

  /** Stage 7 and the exit behind it. */
  function Stage7(v: Vm, ok: bool): (w: Vm)
    ensures Kept(v, w)
  {
    var w := v.(error := NoError, entries := v.entries + [v.subs]);
    if w.auth then Ask(w, [SaveVmRevision], ok) else w.(phase := Exited)
  }

  /** Stage 6: the inner fork. */
  function Stage6(v: Vm, ok: bool): (w: Vm)
    ensures Kept(v, w)
  {
    var k := Forks(v.input);
    var w := v.(error := NoError, subs := v.subs + k, count := v.count + k + 1, forks := v.forks + 1);
    if w.count == 7 then Stage7(w, ok) else w.(phase := Joining)
  }

  /** Stage 5: a poller's statistics. */
  function Stage5(v: Vm, ok: bool, ok2: bool): (w: Vm)
    ensures Kept(v, w)
  {
    var w := v.(error := NoError);
    if w.ret then Stage6(w, ok)
    else if w.checked then Ask(w, [PruneVmStats, UpdateVmStats], ok && ok2)
    else Ask(w, [UpdateVmStats], ok)
  }

  /** Stage 4: the configuration is written unless the stored one is equal. */
  function Stage4(v: Vm, ok: bool, ok2: bool): (w: Vm)
    ensures Kept(v, w)
  {
    if v.checked && ConfigCmp(v.input.config, v.stored) == 0 then
      var w := v.(count := v.count + 1);
      if w.count == 5 then Stage5(w, ok, ok2) else Ask(w, [], true)
    else Ask(v.(auth := true), [UpdateVmConfig], ok)
  }

  /** Stage 3: a known VM is fetched. */
  function Stage3(v: Vm, ok: bool, ok2: bool): (w: Vm)
    ensures Kept(v, w)
  {
    if v.checked then Ask(v, [GetVm], ok) else Stage4(v.(count := v.count + 1), ok, ok2)
  }

  /** Stage 1: a VM that was there already is noted as known, and its state is updated first. */
  function Stage1(v: Vm, ok: bool, ok2: bool): (w: Vm)
    ensures Kept(v, w)
  {
    if v.error == Exists then
      Ask(v.(count := 0, error := NoError, checked := true), [SetVmState, UpdateVmTimestamp], ok && ok2)
    else if Migrating(v.input.config.name) then v.(phase := Exited)
    else Ask(v, [UpdateVmParentNode], ok)
  }

  /** vm_cb_update: the stages fall through as the C switch does. ok and ok2 say whether the
      first and the second query of the stage, if there are so many, could be created. */
  function RunJob(v: Vm, ok: bool, ok2: bool): (w: Vm)
    ensures Kept(v, w)
  {
    match v.count
    case 0 => if !v.input.valid then v.(phase := Exited) else Ask(v, [CreateVm], ok)
    case 1 => Stage1(v, ok, ok2)
    case 2 =>
      var w := v.(error := NoError);
      if w.checked then Ask(w, [IsVmIgnored], ok) else Stage3(w, ok, ok2)
    case 3 => Stage3(v, ok, ok2)
    case 4 => Stage4(v, ok, ok2)
    case 5 => Stage5(v, ok, ok2)
    case 6 => Stage6(v, ok)
    case 7 => Stage7(v, ok)
    case _ => v.(phase := Exited)
  }

  /** One answer: an empty result is an error unless there is one already; the last answer of the
      stage runs the job callback. found is what getVM delivers when that was the query. */
  function Answered(v: Vm, empty: bool, found: Config): Vm
    requires v.phase.Waiting?
  {
    var e := if empty && v.error == NoError then (if v.count == 0 && !v.checked then Exists else Other) else v.error;
    if v.phase.left > 1 then v.(error := e, phase := Waiting(v.phase.left - 1), answers := v.answers + 1)
    else
      v.(error := e, count := v.count + 1, phase := Job, answers := v.answers + 1,
         stored := if v.count != 3 || !v.checked then v.stored else if empty then None else Some(found))
  }

  /** A sub-context exits: if (--pctx->count == 7) the job is queued. */
  function SubExit(v: Vm, auth: bool): Vm
    requires v.subs > 0
  {
    var w := v.(count := v.count - 1, subs := v.subs - 1, auth := v.auth || auth, raised := v.raised || auth);
    if w.count == 7 then w.(phase := Job) else w
  }

  // ---- One VM on the poll path ----

  /** A reachable state on the poll path, or of any VM that entered stage 6 with the count at 6: where
      each phase can be, and that stages 6 and 7 are entered at most once, the latter with no
      sub-context left. */
  ghost predicate PollOk(v: Vm) {
    && (v.ret ==> v.count >= 6) && 0 <= v.count <= 9
    && (v.entries == [] || v.entries == [0]) && v.forks <= 1
    && match v.phase
       case Job =>
         && v.subs == 0 && v.count <= 8 && (v.count <= 7 ==> v.entries == []) && (v.count <= 6 ==> v.forks == 0)
         && (v.count >= 7 ==> v.forks == 1) && (v.count == 8 ==> v.entries == [0])
         && (v.checked ==> v.count > 0) && (v.error == Exists ==> v.count == 1 && !v.checked)
       case Waiting(left) =>
         && v.subs == 0 && 1 <= left <= 2 && v.count <= 7 && (v.count == 7 <==> v.entries == [0])
         && v.count != 6 && v.forks == (if v.count == 7 then 1 else 0)
         && (v.count == 0 && !v.checked ==> left == 1) && v.error != Exists
       case Joining => v.subs > 0 && v.count == 7 + v.subs && v.entries == [] && v.error == NoError && v.forks == 1
       case _ => v.subs == 0 && (v.forks == 1 <==> v.entries == [0])
  }

  /** A bound on the steps that a VM still has before it. */
  function Rank(v: Vm): nat {
    if v.phase.Exited? || v.phase.Stuck? then 0
    else if v.phase.Joining? then (if v.checked then 0 else 100) + 30 + v.subs
    else if v.count > 9 || v.count < 0 then 0
    else (if v.checked then 0 else 100) + 10 * (9 - v.count) + (if v.phase.Job? then 9 else v.phase.left)
  }

  lemma StartIsOk(input: Input)
    ensures PollOk(Start(input, false)) && Rank(Start(input, false)) == 199
  {
  }

  /** Stage 7 is reached with the count at 7, nothing live, and for the first time. */
  lemma Stage7Ok(v: Vm, ok: bool)
    requires v.count == 7 && v.subs == 0 && v.entries == [] && v.forks == 1
    ensures PollOk(Stage7(v, ok)) && Rank(Stage7(v, ok)) <= 121 + if v.checked then -100 else 0
  {
  }

  lemma Stage6Ok(v: Vm, ok: bool)
    requires v.count == 6 && v.subs == 0 && v.entries == [] && v.forks == 0
    ensures PollOk(Stage6(v, ok)) && Rank(Stage6(v, ok)) <= 132 + if v.checked then -100 else 0
  {
    hide Stage7;
    if Forks(v.input) == 0 {
      Stage7Ok(v.(error := NoError, subs := v.subs, count := 7, forks := 1), ok);
    }
  }

  lemma Stage5Ok(v: Vm, ok: bool, ok2: bool)
    requires !v.ret && v.count == 5 && v.subs == 0 && v.entries == [] && v.forks == 0
    ensures PollOk(Stage5(v, ok, ok2)) && Rank(Stage5(v, ok, ok2)) <= 142 + if v.checked then -100 else 0
  {
  }

  lemma Stage4Ok(v: Vm, ok: bool, ok2: bool)
    requires !v.ret && (v.count == 4 || (v.count == 3 && !v.checked)) && v.subs == 0 && v.entries == [] && v.forks == 0 && v.error != Exists
    ensures PollOk(Stage4(v, ok, ok2)) && Rank(Stage4(v, ok, ok2)) <= 191 - 10 * v.count + if v.checked then -100 else 0
  {
    hide Stage5;
    if v.checked && ConfigCmp(v.input.config, v.stored) == 0 {
      Stage5Ok(v.(count := 5), ok, ok2);
    }
  }

  lemma Stage3Ok(v: Vm, ok: bool, ok2: bool)
    requires !v.ret && (v.count == 3 || (v.count == 2 && !v.checked)) && v.subs == 0 && v.entries == [] && v.forks == 0 && v.error != Exists
    ensures PollOk(Stage3(v, ok, ok2)) && Rank(Stage3(v, ok, ok2)) <= 181 - 10 * v.count + if v.checked then -90 else 0
  {
    hide Stage4;
    if !v.checked {
      Stage4Ok(v.(count := v.count + 1), ok, ok2);
    }
  }

  lemma Stage1Ok(v: Vm, ok: bool, ok2: bool)
    requires PollOk(v) && v.phase.Job? && v.count == 1
    ensures PollOk(Stage1(v, ok, ok2)) && Rank(Stage1(v, ok, ok2)) < Rank(v)
  {
    hide Migrating;
  }

  /** A job keeps the invariant and uses up rank. */
  lemma RunOk(v: Vm, ok: bool, ok2: bool)
    requires PollOk(v) && v.phase.Job?
    ensures PollOk(RunJob(v, ok, ok2)) && Rank(RunJob(v, ok, ok2)) < Rank(v)
  {
    hide Stage1, Stage3, Stage4, Stage5, Stage6, Stage7;
    match v.count
    case 0 =>
    case 1 => Stage1Ok(v, ok, ok2);
    case 2 => if !v.checked { Stage3Ok(v.(error := NoError), ok, ok2); }
    case 3 => Stage3Ok(v, ok, ok2);
    case 4 => Stage4Ok(v, ok, ok2);
    case 5 => Stage5Ok(v, ok, ok2);
    case 6 => Stage6Ok(v, ok);
    case 7 => Stage7Ok(v, ok);
    case _ =>
  }

  lemma AnswerOk(v: Vm, empty: bool, found: Config)
    requires PollOk(v) && v.phase.Waiting?
    ensures PollOk(Answered(v, empty, found)) && Rank(Answered(v, empty, found)) < Rank(v)
  {
  }

  lemma SubExitOk(v: Vm, auth: bool)
    requires PollOk(v) && v.subs > 0
    ensures PollOk(SubExit(v, auth)) && Rank(SubExit(v, auth)) < Rank(v)
  {
  }

  // ---- All the VMs of one call ----

  datatype World = World(counter: Counter, vms: seq<Vm>)

  datatype Step =
    | Run(i: nat, ok: bool, ok2: bool)
    | Answer(i: nat, empty: bool, found: Config)
    | Fail(i: nat)
    | ExitSub(i: nat, auth: bool)

  predicate Live(v: Vm) { !v.phase.Exited? }

  predicate EnabledFor(v: Vm, s: Step) {
    match s
    case Run(_, _, _) => v.phase.Job?
    case Answer(_, _, _) => v.phase.Waiting?
    case Fail(_) => v.phase.Waiting?
    case ExitSub(_, _) => v.subs > 0
  }

  predicate Enabled(w: World, s: Step) {
    s.i < |w.vms| && EnabledFor(w.vms[s.i], s)
  }

  function After(v: Vm, s: Step): Vm
    requires EnabledFor(v, s)
  {
    match s
    case Run(_, ok, ok2) => RunJob(v, ok, ok2)
    case Answer(_, empty, found) => Answered(v, empty, found)
    case Fail(_) => v.(phase := Stuck)
    case ExitSub(_, auth) => SubExit(v, auth)
  }

  function Next(w: World, s: Step): World
    requires Enabled(w, s)
  {
    var v := After(w.vms[s.i], s);
    World(if Live(v) then w.counter else w.counter.Exit(), w.vms[s.i := v])
  }

  ghost predicate Reaches(w: World, run: seq<Step>, w': World)
    decreases |run|
  {
    if run == [] then w == w' else Enabled(w, run[0]) && Reaches(Next(w, run[0]), run[1..], w')
  }

  /** _updateVMs, count 1: the counter goes from 1 to n + 5. */
  function Begin(inputs: seq<Input>): World {
    World(Fork(5, |inputs|), seq(|inputs|, i requires 0 <= i < |inputs| => Start(inputs[i], false)))
  }

  ghost predicate Inv(w: World) {
    Joined(w.counter, w.vms, Live) && forall i :: 0 <= i < |w.vms| ==> PollOk(w.vms[i])
  }

  lemma AfterOk(v: Vm, s: Step)
    requires PollOk(v) && EnabledFor(v, s)
    ensures Live(v) && PollOk(After(v, s)) && Rank(After(v, s)) < Rank(v)
  {
    match s
    case Run(_, ok, ok2) => RunOk(v, ok, ok2);
    case Answer(_, empty, found) => AnswerOk(v, empty, found);
    case Fail(_) =>
    case ExitSub(_, auth) => SubExitOk(v, auth);
  }

  lemma StepKeepsInv(w: World, s: Step)
    requires Inv(w) && Enabled(w, s)
    ensures Inv(Next(w, s)) && Total(Next(w, s).vms, Rank) < Total(w.vms, Rank)
  {
    hide PollOk, RunJob, Answered, SubExit, Rank, After;
    var i := s.i;
    var v := w.vms[i];
    AfterOk(v, s);
    JoinStep(w.counter, w.vms, Live, i, After(v, s));
    TotalUpdate(w.vms, Rank, i, After(v, s));
  }

  lemma {:induction false} RunKeepsInv(w: World, run: seq<Step>, w': World)
    requires Inv(w) && Reaches(w, run, w')
    ensures Inv(w') && w'.counter.base == w.counter.base && |w'.vms| == |w.vms|
    ensures |run| + Total(w'.vms, Rank) <= Total(w.vms, Rank)
    decreases |run|
  {
    if run != [] {
      StepKeepsInv(w, run[0]);
      RunKeepsInv(Next(w, run[0]), run[1..], w');
    }
  }

  lemma BeginOk(inputs: seq<Input>)
    requires inputs != []
    ensures Inv(Begin(inputs)) && Total(Begin(inputs).vms, Rank) == 199 * |inputs|
  {
    var vms := Begin(inputs).vms;
    forall i | 0 <= i < |vms| ensures PollOk(vms[i]) && Rank(vms[i]) == 199 && Live(vms[i]) {
      StartIsOk(inputs[i]);
    }
    ForkJoined(5, vms, Live);
    TotalConstant(vms, Rank, 199);
  }

  /** The join of the sub-contexts is in order: they were forked at most once; stage 7 was entered at
      most once, only by a VM that forked, and not before all its sub-contexts had exited; once they
      have, it was entered or its job is queued; the VM has not exited before them, and it does not
      wait for sub-contexts when there are none. */
  ghost predicate Joins(v: Vm) {
    && v.forks <= 1 && (v.entries == [] || v.entries == [0]) && (v.entries == [0] ==> v.forks == 1)
    && (v.forks == 1 && v.subs == 0 ==> v.entries == [0] || (v.phase.Job? && v.count == 7))
    && (v.phase.Exited? || v.phase.Stuck? ==> v.subs == 0) && (v.phase.Joining? ==> v.subs > 0)
  }

  lemma PollOkJoins(v: Vm)
    requires PollOk(v)
    ensures Joins(v)
  {
  }

  /** The nested join on the poll path, over every interleaving of the VMs, their answers and
      their sub-contexts: _updateVMs is resumed at most once, exactly when every VM has exited,
      and then with the count at 5; and the join inside every VM is in order, so that a VM that has
      exited entered stage 7, once and after all its sub-contexts, if and only if it had forked. */
  lemma NestedJoin(inputs: seq<Input>, run: seq<Step>, w: World)
    requires inputs != [] && Reaches(Begin(inputs), run, w)
    ensures w.counter.resumes <= 1
    ensures w.counter.resumes == 1 <==> forall i :: 0 <= i < |w.vms| ==> w.vms[i].phase.Exited?
    ensures if w.counter.resumes == 1 then w.counter.count == 5 else w.counter.count > 5
    ensures |w.vms| == |inputs|
    ensures forall i :: 0 <= i < |w.vms| ==> Joins(w.vms[i])
    ensures forall i :: 0 <= i < |w.vms| && w.vms[i].phase.Exited? ==>
      w.vms[i].subs == 0 && w.vms[i].entries == if w.vms[i].forks == 1 then [0] else []
  {
    BeginOk(inputs);
    RunKeepsInv(Begin(inputs), run, w);
    JoinMeans(w.counter, w.vms, Live);
    forall i | 0 <= i < |w.vms| ensures Joins(w.vms[i]) {
      PollOkJoins(w.vms[i]);
    }
  }

  /** Every such run ends, after at most 199 steps a VM. It cannot go on exactly when every VM has
      exited or is stuck, and then the parent was resumed if and only if none is stuck. */
  lemma UpdateEnds(inputs: seq<Input>, run: seq<Step>, w: World)
    requires inputs != [] && Reaches(Begin(inputs), run, w)
    ensures |run| <= 199 * |inputs|
    ensures (forall s :: !Enabled(w, s)) <==> forall i :: 0 <= i < |w.vms| ==> w.vms[i].phase.Exited? || w.vms[i].phase.Stuck?
    ensures (forall s :: !Enabled(w, s)) ==>
              (w.counter.resumes == 1 <==> forall i :: 0 <= i < |w.vms| ==> !w.vms[i].phase.Stuck?)
  {
    BeginOk(inputs);
    RunKeepsInv(Begin(inputs), run, w);
    JoinMeans(w.counter, w.vms, Live);
    if i :| 0 <= i < |w.vms| && !w.vms[i].phase.Exited? && !w.vms[i].phase.Stuck? {
      assert Enabled(w, Run(i, true, true)) || Enabled(w, Fail(i)) || Enabled(w, ExitSub(i, true));
    }
  }

  /** Nothing is left to happen but exits of sub-contexts of the VMs in idle. */
  ghost predicate OnlyIdleSubs(w: World, idle: set<nat>) {
    forall s :: Enabled(w, s) ==> s.ExitSub? && s.i in idle
  }

  /** Some sub-contexts never exit: those of a VM that was not known before are launched without a
      query, and those of a known one can stop in disk_cb_updateconfig. With the VMs that have such
      sub-contexts only left in idle, this is where a run ends: every VM has exited or is stuck, or
      is one of them and waits; and NestedJoin says whether the parent was resumed. */
  lemma UpdateEndsAsLaunched(inputs: seq<Input>, run: seq<Step>, w: World, idle: set<nat>)
    requires inputs != [] && Reaches(Begin(inputs), run, w)
    ensures OnlyIdleSubs(w, idle) <==>
            forall i :: 0 <= i < |w.vms| ==>
              w.vms[i].phase.Exited? || w.vms[i].phase.Stuck? || (w.vms[i].phase.Joining? && i in idle)
  {
    BeginOk(inputs);
    RunKeepsInv(Begin(inputs), run, w);
    hide Reaches, Begin, Rank;
    StepsLeft(w, idle);
  }

  lemma StepsLeft(w: World, idle: set<nat>)
    requires Inv(w)
    ensures OnlyIdleSubs(w, idle) <==>
            forall i :: 0 <= i < |w.vms| ==>
              w.vms[i].phase.Exited? || w.vms[i].phase.Stuck? || (w.vms[i].phase.Joining? && i in idle)
  {
    hide Joined;
    if i :| 0 <= i < |w.vms| && !w.vms[i].phase.Exited? && !w.vms[i].phase.Stuck? && !(w.vms[i].phase.Joining? && i in idle) {
      assert PollOk(w.vms[i]);
      assert Enabled(w, Run(i, true, true)) || Enabled(w, Fail(i)) || (Enabled(w, ExitSub(i, true)) && i !in idle);
    }
  }

  // ---- The inner join away from the poll path ----

  /** The step can happen to one VM. As the code has it, sub-contexts exit only if they were launched
      with a query, which is so for a VM that was known before. */
  predicate Possible(v: Vm, s: Step, asCoded: bool) {
    EnabledFor(v, s) && (asCoded && s.ExitSub? ==> v.checked)
  }

  /** What one VM goes through, by itself. */
  ghost predicate VmReaches(v: Vm, run: seq<Step>, w: Vm, asCoded: bool)
    decreases |run|
  {
    if run == [] then v == w else Possible(v, run[0], asCoded) && VmReaches(After(v, run[0]), run[1..], w, asCoded)
  }

  /** The join is in order in every run. */
  ghost predicate AlwaysJoins(v: Vm, asCoded: bool) {
    forall run, w :: VmReaches(v, run, w, asCoded) ==> Joins(w)
  }

  lemma Refuted(v: Vm, run: seq<Step>, w: Vm, asCoded: bool)
    requires VmReaches(v, run, w, asCoded) && !Joins(w)
    ensures !AlwaysJoins(v, asCoded)
  {
  }

  lemma {:induction false} PollJoins(v: Vm, run: seq<Step>, w: Vm, asCoded: bool)
    requires PollOk(v) && VmReaches(v, run, w, asCoded)
    ensures Joins(w)
    decreases |run|
  {
    if run == [] {
      PollOkJoins(v);
    } else {
      hide PollOk, After, Joins;
      EnabledIsOk(v, run[0]);
      PollJoins(After(v, run[0]), run[1..], w, asCoded);
    }
  }

  lemma EnabledIsOk(v: Vm, s: Step)
    requires PollOk(v) && EnabledFor(v, s)
    ensures PollOk(After(v, s))
  {
    hide After;
    AfterOk(v, s);
  }

  /** A VM that is invalid or migrating never gets past stage 1. */
  ghost predicate Early(v: Vm) {
    && (!v.input.valid || Migrating(v.input.config.name))
    && v.forks == 0 && v.entries == [] && v.subs == 0
    && match v.phase
       case Job => 0 <= v.count <= 1 && (v.checked ==> v.count == 1) && (v.count == 1 ==> v.input.valid)
                   && (v.error == Exists ==> !v.checked)
       case Waiting(left) => v.count == 0 && v.input.valid && v.error != Exists && (!v.checked ==> left == 1)
       case Joining => false
       case _ => true
  }

  lemma EarlyStays(v: Vm, s: Step)
    requires Early(v) && EnabledFor(v, s)
    ensures Early(After(v, s))
  {
    hide Stage3, Stage4, Stage5, Stage6, Stage7, Migrating;
  }

  lemma {:induction false} EarlyJoins(v: Vm, run: seq<Step>, w: Vm, asCoded: bool)
    requires Early(v) && VmReaches(v, run, w, asCoded)
    ensures Joins(w)
    decreases |run|
  {
    if run != [] {
      hide Early, After, Joins;
      EarlyStays(v, run[0]);
      EarlyJoins(After(v, run[0]), run[1..], w, asCoded);
    }
  }

  lemma {:induction false} VmReachesMore(v: Vm, run: seq<Step>, w: Vm, more: seq<Step>, x: Vm, asCoded: bool)
    requires VmReaches(v, run, w, asCoded) && VmReaches(w, more, x, asCoded)
    ensures VmReaches(v, run + more, x, asCoded)
    decreases |run|
  {
    hide After, EnabledFor;
    if run == [] {
      assert run + more == more;
    } else {
      assert (run + more)[1..] == run[1..] + more;
      VmReachesMore(After(v, run[0]), run[1..], w, more, x, asCoded);
    }
  }

  lemma StepFirst(v: Vm, s: Step, run: seq<Step>, w: Vm, asCoded: bool)
    requires Possible(v, s, asCoded) && VmReaches(After(v, s), run, w, asCoded)
    ensures VmReaches(v, [s] + run, w, asCoded)
  {
    hide After, Possible;
    assert ([s] + run)[1..] == run;
  }

  /** About to enter stage 6, by way of stage 5 or not. */
  ghost predicate AtFork(v: Vm) {
    v.ret && v.phase.Job? && v.subs == 0 && v.entries == [] && v.forks == 0 && v.error != Exists
  }

  /** Entered with the count at 5, stage 6 waits for ever without a sub-context, goes on at once with
      one, and with two goes on when the first of them exits. */
  lemma ForkAtFive(v: Vm, asCoded: bool) returns (run: seq<Step>, w: Vm)
    requires AtFork(v) && v.count == 5 && (asCoded ==> v.checked)
    ensures VmReaches(v, run, w, asCoded) && !Joins(w)
    ensures Forks(v.input) == 0 ==> w.phase.Joining? && w.subs == 0
    ensures Forks(v.input) > 0 ==> w.entries == [1] && w.subs == 1
  {
    var go, exit := Run(0, true, true), ExitSub(0, false);
    w := After(v, go);
    run := [];
    if Forks(v.input) == 2 {
      var w1 := w;
      assert w1.phase.Joining? && w1.count == 8 && w1.subs == 2 && w1.entries == [] && w1.checked == v.checked;
      var w2 := After(w1, exit);
      assert w2.phase.Job? && w2.count == 7 && w2.subs == 1 && w2.entries == [];
      w := After(w2, go);
      StepFirst(w2, go, [], w, asCoded);
      StepFirst(w1, exit, [go] + [], w, asCoded);
      run := [exit] + ([go] + []);
    }
    StepFirst(v, go, run, w, asCoded);
    run := [go] + run;
    assert w.entries == [1] ==> w.entries[0] == 1;
  }

  /** Stage 6 joins its sub-contexts in every run if and only if it is entered with the count at 6. */
  lemma InnerJoinNeedsSix(v: Vm, asCoded: bool)
    requires AtFork(v) && 5 <= v.count <= 6 && (asCoded ==> v.checked)
    ensures AlwaysJoins(v, asCoded) <==> v.count == 6
  {
    if v.count == 6 {
      forall run, w | VmReaches(v, run, w, asCoded) ensures Joins(w) {
        PollJoins(v, run, w, asCoded);
      }
    } else {
      hide AlwaysJoins;
      var run, w := ForkAtFive(v, asCoded);
      Refuted(v, run, w, asCoded);
    }
  }

  /** A VM of a user's call that was known before, on its way with each query answered well. The
      stored configuration differs in its memory. */
  ghost predicate OnItsWay(v: Vm) {
    && AtFork(v) && v.error == NoError && v.checked && v.input.valid && !Migrating(v.input.config.name)
    && 1 <= v.count <= 5 && (v.count == 4 ==> v.stored == Some(Differing(v.input.config)))
  }

  function Differing(c: Config): (d: Config)
    ensures d != c
  {
    c.(mem := c.mem + 1)
  }

  lemma OneRound(v: Vm, go: Step, yes: Step)
    requires OnItsWay(v) && v.count < 5 && go == Run(0, true, true) && yes == Answer(0, false, Differing(v.input.config))
    ensures EnabledFor(v, go) && EnabledFor(After(v, go), yes)
    ensures var w := After(After(v, go), yes); OnItsWay(w) && w.input == v.input && w.count == v.count + 1
  {
    hide Stage5, Migrating, Differing;
    match v.count
    case 1 =>
    case 2 =>
    case 3 =>
    case _ => assert ConfigCmp(v.input.config, v.stored) != 0;
  }

  /** It comes to stage 6 with the count at 5. */
  lemma {:induction false} ComesToFive(v: Vm) returns (run: seq<Step>, w: Vm)
    requires OnItsWay(v)
    ensures VmReaches(v, run, w, true) && OnItsWay(w) && w.count == 5 && w.input == v.input
    decreases 5 - v.count
  {
    run, w := [], v;
    if v.count < 5 {
      hide After, EnabledFor, OnItsWay;
      var go, yes := Run(0, true, true), Answer(0, false, Differing(v.input.config));
      OneRound(v, go, yes);
      var rest;
      rest, w := ComesToFive(After(After(v, go), yes));
      StepFirst(After(v, go), yes, rest, w, true);
      StepFirst(v, go, [yes] + rest, w, true);
      run := [go] + ([yes] + rest);
    }
  }

  /** createVM finds that the VM is there, and its state is updated. */
  lemma FoundKnown(input: Input) returns (run: seq<Step>, w: Vm)
    requires input.valid && !Migrating(input.config.name)
    ensures VmReaches(Start(input, true), run, w, true) && OnItsWay(w) && w.input == input
  {
    hide Migrating;
    var go, no, yes := Run(0, true, true), Answer(0, true, input.config), Answer(0, false, input.config);
    var v0 := Start(input, true);
    var v1 := After(v0, go);
    assert v1.phase == Waiting(1) && v1.count == 0 && v1.error == NoError;
    var v2 := After(v1, no);
    assert v2.phase == Job && v2.count == 1 && v2.error == Exists;
    var v3 := After(v2, go);
    assert v3.phase == Waiting(2) && v3.count == 0 && v3.checked;
    var v4 := After(v3, yes);
    w := After(v4, yes);
    StepFirst(v4, yes, [], w, true);
    StepFirst(v3, yes, [yes] + [], w, true);
    StepFirst(v2, go, [yes] + ([yes] + []), w, true);
    StepFirst(v1, no, [go] + ([yes] + ([yes] + [])), w, true);
    StepFirst(v0, go, [no] + ([go] + ([yes] + ([yes] + []))), w, true);
    run := [go] + ([no] + ([go] + ([yes] + ([yes] + []))));
  }

  lemma {:induction false} AsCodedToo(v: Vm, run: seq<Step>, w: Vm)
    requires VmReaches(v, run, w, true)
    ensures VmReaches(v, run, w, false)
    decreases |run|
  {
    if run != [] {
      hide After;
      AsCodedToo(After(v, run[0]), run[1..], w);
    }
  }

  /** The inner join works in every run if and only if the VM was handed in by a poller, or is not
      updated at all because it is invalid or migrating; whether all sub-contexts can exit or only
      those that are launched with a query. */
  lemma InnerJoinIsExact(input: Input, ret: bool, asCoded: bool)
    ensures AlwaysJoins(Start(input, ret), asCoded) <==> !ret || !input.valid || Migrating(input.config.name)
  {
    var v := Start(input, ret);
    if !ret {
      StartIsOk(input);
      forall run, w | VmReaches(v, run, w, asCoded) ensures Joins(w) {
        PollJoins(v, run, w, asCoded);
      }
    } else if !input.valid || Migrating(input.config.name) {
      forall run, w | VmReaches(v, run, w, asCoded) ensures Joins(w) {
        EarlyJoins(v, run, w, asCoded);
      }
    } else {
      hide AlwaysJoins;
      FailsFor(input, asCoded);
    }
  }

  lemma FailsFor(input: Input, asCoded: bool)
    requires input.valid && !Migrating(input.config.name)
    ensures !AlwaysJoins(Start(input, true), asCoded)
  {
    hide AlwaysJoins, After, Joins, VmReaches;
    var v := Start(input, true);
    var run0, v0 := FoundKnown(input);
    var run1, v1 := ComesToFive(v0);
    var run2, w := ForkAtFive(v1, true);
    VmReachesMore(v0, run1, v1, run2, w, true);
    VmReachesMore(v, run0, v0, run1 + run2, w, true);
    AsCodedToo(v, run0 + (run1 + run2), w);
    Refuted(v, run0 + (run1 + run2), w, asCoded);
  }

  /** The two ways into stage 6: a poller's answer brings the count to 6, a user's call falls in at 5. */
  lemma WaysIntoStage6(v: Vm, ok: bool, ok2: bool)
    requires v.count == 5 && v.phase.Job?
    ensures v.ret ==> RunJob(v, ok, ok2) == Stage6(v.(error := NoError), ok)
    ensures !v.ret ==> RunJob(v, ok, ok2).phase.Exited? || (RunJob(v, ok, ok2).phase.Waiting? && RunJob(v, ok, ok2).count == 5)
  {
    hide Stage4, Stage6, Stage7;
  }

  // ---- The same, in place ----

  /** The context of _updateVMs, as far as its children see it. */
  class Parent {
    var count: int
    var resumes: nat

    function Join(): Counter
      reads this
    {
      Counter(count, 5, resumes)
    }

    /** _updateVMs, count 1, with n VMs. */
    constructor Forked(n: nat)
      ensures Join() == Fork(5, n)
    {
      count := 1;
      resumes := 0;
      new;
      count := count + n + 4;
    }
  }

  /** One context of vm_cb_update, updated in place. */
  class Context {
    const input: Input
    const ret: bool
    var count: int
    var error: Error
    var checked: bool
    var auth: bool
    var stored: Option<Config>
    var phase: Phase
    var subs: nat
    ghost var entries: seq<nat>
    ghost var forks: nat
    ghost var asked: seq<Query>
    ghost var answers: nat
    ghost var raised: bool

    ghost function View(): Vm
      reads this
    {
      Vm(input, ret, count, error, checked, auth, stored, phase, subs, entries, forks, asked, answers, raised)
    }

    constructor (input: Input, ret: bool)
      ensures View() == Start(input, ret)
    {
      this.input, this.ret := input, ret;
      count, error, checked, auth, stored, phase, subs := 0, NoError, false, false, None, Job, 0;
      entries, forks, asked, answers, raised := [], 0, [], 0, false;
    }

    /** QUERY: a query that cannot be created is an error. */
    method Make(ghost q: Query, ok: bool)
      modifies this`error, this`asked
      ensures error == (if ok then old(error) else Other) && asked == old(asked) + [q]
    {
      asked := asked + [q];
      if !ok {
        error := Other;
      }
    }

    /** The end of the function: go on waiting, or free the context and tell the parent. */
    method End(pctx: Parent, left: nat, out: bool)
      modifies this`phase, pctx
      ensures phase == if !out && error == NoError then Waiting(left) else Exited
      ensures pctx.Join() == if phase.Exited? then old(pctx.Join()).Exit() else old(pctx.Join())
    {
      if !out && error == NoError {
        phase := Waiting(left);
        return;
      }
      phase := Exited;
      pctx.count := pctx.count - 1;
      if pctx.count == 5 {
        pctx.resumes := pctx.resumes + 1;
      }
    }

    method Case7(pctx: Parent, ok: bool)
      modifies this, pctx
      ensures View() == Stage7(old(View()), ok)
      ensures pctx.Join() == if Live(View()) then old(pctx.Join()) else old(pctx.Join()).Exit()
    {
      error := NoError;
      entries := entries + [subs];
      if auth {
        Make(SaveVmRevision, ok);
        End(pctx, 1, false);
      } else {
        End(pctx, 0, true);
      }
    }

    /** One sub-context, for the disks or the interfaces, if the VM has any. */
    method Launch(has: bool)
      modifies this`subs, this`count
      ensures subs == old(subs) + if has then 1 else 0
      ensures count == old(count) + if has then 1 else 0
    {
      if has {
        subs := subs + 1;
        count := count + 1;
      }
    }

    method Case6(pctx: Parent, ok: bool)
      modifies this, pctx
      ensures View() == Stage6(old(View()), ok)
      ensures pctx.Join() == if Live(View()) then old(pctx.Join()) else old(pctx.Join()).Exit()
    {
      hide Stage7;
      error := NoError;
      Launch(input.disks);
      Launch(input.vifs);
      count := count + 1;
      forks := forks + 1;
      if count != 7 {
        phase := Joining;
        return;
      }
      Case7(pctx, ok);
    }

    method Case5(pctx: Parent, ok: bool, ok2: bool)
      modifies this, pctx
      ensures View() == Stage5(old(View()), ok, ok2)
      ensures pctx.Join() == if Live(View()) then old(pctx.Join()) else old(pctx.Join()).Exit()
    {
      hide Stage6;
      error := NoError;
      if !ret {
        if checked {
          Make(PruneVmStats, ok);
          Make(UpdateVmStats, ok2);
          End(pctx, 2, false);
        } else {
          Make(UpdateVmStats, ok);
          End(pctx, 1, false);
        }
        return;
      }
      Case6(pctx, ok);
    }

    method Case4(pctx: Parent, ok: bool, ok2: bool)
      requires count == 4 || !checked
      modifies this, pctx
      ensures View() == Stage4(old(View()), ok, ok2)
      ensures pctx.Join() == if Live(View()) then old(pctx.Join()) else old(pctx.Join()).Exit()
    {
      hide Stage5;
      if checked && ConfigCmp(input.config, stored) == 0 {
        count := count + 1;
        Case5(pctx, ok, ok2);
      } else {
        Make(UpdateVmConfig, ok);
        auth := true;
        End(pctx, 1, false);
      }
    }

    method Case3(pctx: Parent, ok: bool, ok2: bool)
      requires count == 2 || count == 3
      modifies this, pctx
      ensures View() == Stage3(old(View()), ok, ok2)
      ensures pctx.Join() == if Live(View()) then old(pctx.Join()) else old(pctx.Join()).Exit()
    {
      hide Stage4;
      if checked {
        Make(GetVm, ok);
        End(pctx, 1, false);
      } else {
        count := count + 1;
        Case4(pctx, ok, ok2);
      }
    }

    method Case1(pctx: Parent, ok: bool, ok2: bool)
      requires count == 1
      modifies this, pctx
      ensures View() == Stage1(old(View()), ok, ok2)
      ensures pctx.Join() == if Live(View()) then old(pctx.Join()) else old(pctx.Join()).Exit()
    {
      if error == Exists {
        count := count - 1;
        error := NoError;
        checked := true;
        Make(SetVmState, ok);
        Make(UpdateVmTimestamp, ok2);
        End(pctx, 2, false);
      } else if Migrating(input.config.name) {
        End(pctx, 0, true);
      } else {
        Make(UpdateVmParentNode, ok);
        End(pctx, 1, false);
      }
    }

    /** vm_cb_update: the switch on count; a case that falls through calls the next one. */
    method Update(pctx: Parent, ok: bool, ok2: bool)
      requires phase == Job
      modifies this, pctx
      ensures View() == RunJob(old(View()), ok, ok2)
      ensures pctx.Join() == if Live(View()) then old(pctx.Join()) else old(pctx.Join()).Exit()
    {
      hide Stage1, Stage3, Stage4, Stage5, Stage6, Stage7;
      match count
      case 0 =>
        if !input.valid {
          End(pctx, 0, true);
        } else {
          Make(CreateVm, ok);
          End(pctx, 1, false);
        }
      case 1 => Case1(pctx, ok, ok2);
      case 2 =>
        error := NoError;
        if checked {
          Make(IsVmIgnored, ok);
          End(pctx, 1, false);
        } else {
          Case3(pctx, ok, ok2);
        }
      case 3 => Case3(pctx, ok, ok2);
      case 4 => Case4(pctx, ok, ok2);
      case 5 => Case5(pctx, ok, ok2);
      case 6 => Case6(pctx, ok);
      case 7 => Case7(pctx, ok);
      case _ => End(pctx, 0, true);
    }

    /** cb_bool_job and cb_pointer_job, and the handlers' error in front of them. */
    method Answer(empty: bool, found: Config)
      requires phase.Waiting?
      modifies this
      ensures View() == Answered(old(View()), empty, found)
    {
      if empty && error == NoError {
        error := if count == 0 && !checked then Exists else Other;
      }
      answers := answers + 1;
      if phase.left > 1 {
        phase := Waiting(phase.left - 1);
      } else {
        if count == 3 && checked {
          stored := if empty then None else Some(found);
        }
        count := count + 1;
        phase := Job;
      }
    }

    /** The end of disk_cb_updateconfig and vif_cb_updateconfig, in their parent. */
    method SubExited(revise: bool)
      requires subs > 0
      modifies this
      ensures View() == SubExit(old(View()), revise)
    {
      auth, raised := auth || revise, raised || revise;
      subs := subs - 1;
      count := count - 1;
      if count == 7 {
        phase := Job;
      }
    }
  }
}
