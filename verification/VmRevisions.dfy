/** What one call of _updateVMs asks of the database for each VM on the poll path, and that every VM
    gets to its end. */
module VmRevisions {
  import opened Options
  import opened Join
  import opened VmConfig
  import opened VmUpdate

  // ---- The queries ----

  /** The first queries: a known VM has its state updated in between. */
  function Opening(checked: bool): seq<Query> {
    [CreateVm] + if checked then [SetVmState, UpdateVmTimestamp] else []
  }

  /** Up to the comparison: a known VM is fetched. */
  function UpToLookup(checked: bool): seq<Query> {
    Opening(checked) + [UpdateVmParentNode] + if checked then [IsVmIgnored, GetVm] else []
  }

  /** How the configuration is written: a VM that was created by this call goes through stage 4
      twice, a known one writes a difference. */
  function Writes(v: Vm): seq<Query> {
    if !v.checked then [UpdateVmConfig, UpdateVmConfig]
    else if v.stored == Some(v.input.config) then []
    else [UpdateVmConfig]
  }

  function Statistics(checked: bool): seq<Query> {
    (if checked then [PruneVmStats] else []) + [UpdateVmStats]
  }

  /** All queries before the revision. */
  function Script(v: Vm): seq<Query> {
    UpToLookup(v.checked) + Writes(v) + Statistics(v.checked)
  }

  /** A revision is due when something was written or a sub-context asked for it. */
  predicate RevisionDue(v: Vm) {
    Writes(v) != [] || v.raised
  }

  function Revision(v: Vm): seq<Query> {
    if RevisionDue(v) then [SaveVmRevision] else []
  }

  /** The queries so far, by where the VM is. */
  function Sofar(v: Vm): seq<Query> {
    match v.phase
    case Job =>
      (match v.count
       case 0 => []
       case 1 => Opening(v.checked)
       case 2 => Opening(v.checked) + [UpdateVmParentNode]
       case 3 => Opening(v.checked) + [UpdateVmParentNode, IsVmIgnored]
       case 4 => UpToLookup(v.checked) + if v.checked then [] else [UpdateVmConfig]
       case 5 => UpToLookup(v.checked) + Writes(v)
       case 8 => Script(v) + Revision(v)
       case _ => Script(v))
    case Waiting(_) =>
      (match v.count
       case 0 => Opening(v.checked)
       case 1 => Opening(v.checked) + [UpdateVmParentNode]
       case 2 => Opening(v.checked) + [UpdateVmParentNode, IsVmIgnored]
       case 3 => UpToLookup(v.checked) + if v.checked then [] else [UpdateVmConfig]
       case 4 => UpToLookup(v.checked) + Writes(v)
       case 7 => Script(v) + Revision(v)
       case _ => Script(v))
    case Joining => Script(v)
    case _ => Script(v) + Revision(v)
  }

  /** How many answers are still missing. */
  function Missing(v: Vm): nat {
    if v.phase.Waiting? then v.phase.left else 0
  }

  /** Past the comparison a known VM was found, and auth says whether a revision is due. */
  predicate Compared(v: Vm) {
    (v.checked ==> v.stored.Some?) && (v.auth <==> RevisionDue(v))
  }

  /** Nothing was written yet that makes a revision due, but a new VM's first configuration. */
  predicate Uncompared(v: Vm, written: bool) {
    !v.raised && (v.auth <==> written)
  }

  ghost predicate Traced(v: Vm) {
    && (v.phase.Exited? || v.phase.Stuck? ==> v.entries == [0] ==> v.asked == Sofar(v) && Compared(v))
    && (v.entries == [] ==> SaveVmRevision !in v.asked)
    && (!v.phase.Exited? && !v.phase.Stuck? ==> v.asked == Sofar(v) && |v.asked| == v.answers + Missing(v))
    && match v.phase
       case Job =>
         && (v.count == 3 ==> v.checked)
         && (v.count <= 3 ==> Uncompared(v, false))
         && (v.count == 4 ==> Uncompared(v, !v.checked) && (v.checked && v.error == NoError ==> v.stored.Some?))
         && (v.count >= 5 ==> Compared(v))
       case Waiting(_) =>
         && (v.count == 2 ==> v.checked)
         && (v.count <= 2 ==> Uncompared(v, false))
         && (v.count == 3 ==> Uncompared(v, !v.checked))
         && (v.count >= 4 ==> Compared(v)) && (v.count == 7 ==> v.auth)
       case Joining => Compared(v)
       case _ => true
  }

  lemma Stage7Traced(v: Vm, ok: bool)
    requires v.entries == [] && v.count == 7 && v.subs == 0
    requires v.asked == Script(v) && |v.asked| == v.answers && Compared(v)
    ensures Traced(Stage7(v, ok))
  {
    hide Script, Writes;
    var w := Stage7(v, ok);
    assert Script(w) == Script(v) && Writes(w) == Writes(v) by { SameScript(v, w); }
    assert v.asked + [] == v.asked;
  }

  lemma SameScript(v: Vm, w: Vm)
    requires v.checked == w.checked && v.stored == w.stored && v.input == w.input
    ensures Script(v) == Script(w) && Writes(v) == Writes(w)
  {
  }

  lemma Stage6Traced(v: Vm, ok: bool)
    requires v.entries == [] && v.count == 6 && v.subs == 0
    requires v.asked == Script(v) && |v.asked| == v.answers && Compared(v)
    requires SaveVmRevision !in v.asked
    ensures Traced(Stage6(v, ok))
  {
    hide Stage7, Script, Writes;
    var w := v.(error := NoError, subs := v.subs + Forks(v.input), count := v.count + Forks(v.input) + 1, forks := v.forks + 1);
    SameScript(v, w);
    if Forks(v.input) == 0 {
      Stage7Traced(w, ok);
    } else {
      SameScript(v, w.(phase := Joining));
    }
  }

  lemma Stage5Traced(v: Vm, ok: bool, ok2: bool)
    requires !v.ret && v.entries == [] && v.count == 5
    requires v.asked == UpToLookup(v.checked) + Writes(v) && |v.asked| == v.answers && Compared(v)
    requires SaveVmRevision !in v.asked
    ensures Traced(Stage5(v, ok, ok2))
  {
    hide Stage6, UpToLookup, Writes;
    var w := Stage5(v, ok, ok2);
    SameScript(v, w);
    assert w.asked == v.asked + Statistics(v.checked) && SaveVmRevision !in w.asked;
    hide Stage5, Statistics;
  }

  lemma Stage4Traced(v: Vm, ok: bool, ok2: bool)
    requires !v.ret && v.entries == [] && (v.count == 4 || (v.count == 3 && !v.checked))
    requires v.asked == UpToLookup(v.checked) + (if v.checked || v.count == 3 then [] else [UpdateVmConfig])
    requires |v.asked| == v.answers && Uncompared(v, v.count == 4 && !v.checked)
    requires v.checked && v.error == NoError ==> v.stored.Some?
    requires SaveVmRevision !in v.asked
    ensures Traced(Stage4(v, ok, ok2))
  {
    hide Stage5, UpToLookup;
    if v.checked && ConfigCmp(v.input.config, v.stored) == 0 {
      Stage5Traced(v.(count := 5), ok, ok2);
    } else {
      var w := Stage4(v, ok, ok2);
      SameScript(v, w);
      assert w.asked == v.asked + [UpdateVmConfig];
      hide ConfigCmp;
      assert v.count == 4 ==> w.asked == UpToLookup(v.checked) + Writes(v);
    }
  }

  lemma Stage3Traced(v: Vm, ok: bool, ok2: bool)
    requires !v.ret && v.entries == [] && ((v.count == 3 && v.checked) || (v.count == 2 && !v.checked))
    requires v.asked == Opening(v.checked) + [UpdateVmParentNode] + (if v.checked then [IsVmIgnored] else [])
    requires |v.asked| == v.answers && Uncompared(v, false)
    requires SaveVmRevision !in v.asked
    ensures Traced(Stage3(v, ok, ok2))
  {
    hide Stage4;
    if !v.checked {
      Stage4Traced(v.(count := v.count + 1), ok, ok2);
    } else {
      assert v.asked + [GetVm] == UpToLookup(true);
    }
  }

  lemma Stage1Traced(v: Vm, ok: bool, ok2: bool)
    requires PollOk(v) && Traced(v) && v.phase.Job? && v.count == 1
    ensures Traced(Stage1(v, ok, ok2))
  {
    hide Migrating;
  }

  lemma RunTraced(v: Vm, ok: bool, ok2: bool)
    requires PollOk(v) && Traced(v) && v.phase.Job?
    ensures Traced(RunJob(v, ok, ok2))
  {
    hide Stage1, Stage3, Stage4, Stage5, Stage6, Stage7;
    match v.count
    case 0 =>
    case 1 => Stage1Traced(v, ok, ok2);
    case 2 => if !v.checked { Stage3Traced(v.(error := NoError), ok, ok2); }
    case 3 => Stage3Traced(v, ok, ok2);
    case 4 => Stage4Traced(v, ok, ok2);
    case 5 => Stage5Traced(v, ok, ok2);
    case 6 => Stage6Traced(v, ok);
    case 7 => Stage7Traced(v, ok);
    case _ =>
  }

  lemma AnswerTraced(v: Vm, empty: bool, found: Config)
    requires PollOk(v) && Traced(v) && v.phase.Waiting?
    ensures Traced(Answered(v, empty, found))
  {
    hide UpToLookup, Opening, Statistics;
  }

  lemma SubExitTraced(v: Vm, auth: bool)
    requires PollOk(v) && Traced(v) && v.subs > 0
    ensures Traced(SubExit(v, auth))
  {
    hide UpToLookup, Opening, Statistics;
  }

  lemma FailTraced(v: Vm)
    requires PollOk(v) && Traced(v) && v.phase.Waiting?
    ensures Traced(v.(phase := Stuck))
  {
    hide UpToLookup, Opening, Statistics;
  }

  ghost predicate AllTraced(w: World) {
    Inv(w) && forall i :: 0 <= i < |w.vms| ==> Traced(w.vms[i])
  }

  lemma StepTraced(w: World, s: Step)
    requires AllTraced(w) && Enabled(w, s)
    ensures AllTraced(Next(w, s))
  {
    hide PollOk, RunJob, Answered, SubExit, Traced;
    StepKeepsInv(w, s);
    var v := w.vms[s.i];
    match s
    case Run(_, ok, ok2) => RunTraced(v, ok, ok2);
    case Answer(_, empty, found) => AnswerTraced(v, empty, found);
    case Fail(_) => FailTraced(v);
    case ExitSub(_, auth) => SubExitTraced(v, auth);
  }

  lemma {:induction false} RunKeepsTraced(w: World, run: seq<Step>, w': World)
    requires AllTraced(w) && Reaches(w, run, w')
    ensures AllTraced(w')
    decreases |run|
  {
    if run != [] {
      hide Next, AllTraced;
      StepTraced(w, run[0]);
      RunKeepsTraced(Next(w, run[0]), run[1..], w');
    }
  }

  lemma BeginTraced(inputs: seq<Input>)
    requires inputs != []
    ensures AllTraced(Begin(inputs))
  {
    BeginOk(inputs);
    forall i | 0 <= i < |inputs| ensures Traced(Start(inputs[i], false)) {
    }
  }

  /** Over every interleaving: a VM that has reached stage 7, and so every VM that forked and has
      exited, has made exactly the queries of its script, in order. If this call created it, that
      writes its configuration twice; if it was known before it was found, and its configuration was
      written once if it differs and not at all if it is equal. One revision was asked for exactly
      when something was written or a sub-context asked for it, and none before stage 7. As long as
      the VM is under way, every query has been answered but those that it waits for. */
  lemma RevisionsAreDue(inputs: seq<Input>, run: seq<Step>, w: World, i: nat)
    requires inputs != [] && Reaches(Begin(inputs), run, w) && i < |w.vms|
    ensures var v := w.vms[i];
            if v.entries != [] || (v.phase.Exited? && v.forks == 1) then
              v.asked == Script(v) + Revision(v) && (v.checked ==> v.stored.Some?)
            else SaveVmRevision !in v.asked
    ensures var v := w.vms[i]; !v.phase.Exited? && !v.phase.Stuck? ==> |v.asked| == v.answers + Missing(v)
  {
    BeginTraced(inputs);
    RunKeepsTraced(Begin(inputs), run, w);
    assert PollOk(w.vms[i]) && Traced(w.vms[i]);
    hide Reaches, Begin, AllTraced, Script, Revision;
  }

  lemma StoredByAnswer(v: Vm, s: Step)
    requires EnabledFor(v, s)
    ensures After(v, s).stored == v.stored || After(v, s).stored == None
            || (s.Answer? && !s.empty && After(v, s).stored == Some(s.found))
  {
    hide RunJob;
  }

  /** The stored configuration that a VM is compared with is one that an answer brought for it. */
  lemma {:induction false} StoredWasFound(w: World, run: seq<Step>, w': World, i: nat)
    requires i < |w.vms| && Reaches(w, run, w') && i < |w'.vms|
    ensures w'.vms[i].stored == w.vms[i].stored || w'.vms[i].stored == None
            || exists k :: 0 <= k < |run| && run[k] == Answer(i, false, w'.vms[i].stored.value)
    decreases |run|
  {
    if run != [] {
      var w1, stored := Next(w, run[0]), w'.vms[i].stored;
      StoredByAnswer(w.vms[run[0].i], run[0]);
      hide After, EnabledFor;
      assert w1.vms[i].stored == w.vms[i].stored || w1.vms[i].stored == None || run[0] == Answer(i, false, w1.vms[i].stored.value);
      StoredWasFound(w1, run[1..], w', i);
      if k :| 0 <= k < |run[1..]| && stored.Some? && run[1..][k] == Answer(i, false, stored.value) {
        assert run[k + 1] == run[1..][k];
      }
    }
  }

  // ---- The sub-contexts ----

  /** One sub-context for the disks and one for the interfaces, if the VM has any. */
  function Lists(input: Input): nat {
    match (input.disks, input.vifs)
    case (true, true) => 2
    case (false, false) => 0
    case _ => 1
  }

  /** From v to w nothing was launched, or all sub-contexts once. */
  predicate Launches(v: Vm, w: Vm) {
    (w.forks == v.forks && w.subs == v.subs) || (w.forks == v.forks + 1 && w.subs == v.subs + Lists(v.input))
  }

  lemma Stage5Launches(v: Vm, ok: bool, ok2: bool)
    ensures Launches(v, Stage5(v, ok, ok2)) && Launches(v, Stage6(v, ok)) && Launches(v, Stage7(v, ok))
  {
    Stage7Launches(v, ok);
    Stage6Launches(v, ok);
    Stage6Launches(v.(error := NoError), ok);
    hide Stage6, Stage7, Lists;
  }

  lemma Stage7Launches(v: Vm, ok: bool)
    ensures Launches(v, Stage7(v, ok)) && Stage7(v, ok).forks == v.forks
  {
  }

  lemma Stage6Launches(v: Vm, ok: bool)
    ensures Launches(v, Stage6(v, ok))
  {
    hide Stage7;
    Stage7Launches(v.(error := NoError, subs := v.subs + Forks(v.input), count := v.count + Forks(v.input) + 1, forks := v.forks + 1), ok);
  }

  lemma Stage4Launches(v: Vm, ok: bool, ok2: bool)
    ensures Launches(v, Stage4(v, ok, ok2))
  {
    hide Stage5, ConfigCmp, Lists;
    Stage5Launches(v.(count := v.count + 1), ok, ok2);
  }

  lemma Stage3Launches(v: Vm, ok: bool, ok2: bool)
    ensures Launches(v, Stage3(v, ok, ok2))
  {
    hide Stage4, Lists;
    Stage4Launches(v.(count := v.count + 1), ok, ok2);
  }

  lemma JobLaunches(v: Vm, ok: bool, ok2: bool)
    ensures Launches(v, RunJob(v, ok, ok2))
  {
    hide Lists, Migrating, Stage1, Stage3, Stage4, Stage5, Stage6, Stage7;
    match v.count
    case 0 =>
    case 1 => Stage1LaunchesNone(v, ok, ok2);
    case 2 => Stage3Launches(v.(error := NoError), ok, ok2);
    case 3 => Stage3Launches(v, ok, ok2);
    case 4 => Stage4Launches(v, ok, ok2);
    case 5 => Stage5Launches(v, ok, ok2);
    case 6 => Stage5Launches(v, ok, ok2);
    case 7 => Stage5Launches(v, ok, ok2);
    case _ =>
  }

  lemma Stage1LaunchesNone(v: Vm, ok: bool, ok2: bool)
    ensures Launches(v, Stage1(v, ok, ok2))
  {
    hide Migrating, Lists;
  }

  /** How many exits of sub-contexts of the VM the run has. */
  function Exits(run: seq<Step>, i: nat): nat {
    if run == [] then 0 else (if run[0].ExitSub? && run[0].i == i then 1 else 0) + Exits(run[1..], i)
  }

  lemma StepLaunches(v: Vm, s: Step)
    requires EnabledFor(v, s)
    ensures var w := After(v, s); Launches(v, w.(subs := w.subs + if s.ExitSub? then 1 else 0)) && w.input == v.input
  {
    hide RunJob, Lists;
    match s
    case Run(_, ok, ok2) => JobLaunches(v, ok, ok2);
    case Answer(_, _, _) =>
    case Fail(_) =>
    case ExitSub(_, _) =>
  }

  /** n sub-contexts for each of k times. */
  function Times(n: nat, k: nat): nat { n * k }

  lemma TimesMore(n: nat, a: nat, b: nat)
    ensures Times(n, a + b) == Times(n, a) + Times(n, b) && Times(n, 0) == 0 && Times(n, 1) == n
  {
  }

  lemma StepCounts(w: World, s: Step, i: nat)
    requires i < |w.vms| && Enabled(w, s)
    ensures var (v, v') := (w.vms[i], Next(w, s).vms[i]);
            && v'.input == v.input && v'.forks >= v.forks
            && v'.subs + (if s.ExitSub? && s.i == i then 1 else 0) == v.subs + Times(Lists(v.input), v'.forks - v.forks)
  {
    hide After, EnabledFor, Lists;
    if s.i == i {
      StepLaunches(w.vms[i], s);
    }
    TimesMore(Lists(w.vms[i].input), 0, 0);
    hide Times;
  }

  /** Over every run: each time stage 6 is entered it launches one sub-context for each list that the
      VM has, and every one of them has exited or is still there. */
  lemma {:induction false} SubsAreLaunched(w: World, run: seq<Step>, w': World, i: nat)
    requires i < |w.vms| && Reaches(w, run, w') && i < |w'.vms|
    ensures w'.vms[i].forks >= w.vms[i].forks
    ensures w'.vms[i].subs + Exits(run, i) == w.vms[i].subs + Times(Lists(w.vms[i].input), w'.vms[i].forks - w.vms[i].forks)
    decreases |run|
  {
    if run != [] {
      var w1 := Next(w, run[0]);
      StepCounts(w, run[0], i);
      hide After, EnabledFor, Lists, Next, Times;
      SubsAreLaunched(w1, run[1..], w', i);
      TimesMore(Lists(w.vms[i].input), w1.vms[i].forks - w.vms[i].forks, w'.vms[i].forks - w1.vms[i].forks);
    }
  }

  // ---- Every VM gets to its end ----

  /** A query of the step could not be created, or its answer was empty without saying that the VM
      exists already. */
  predicate Flaw(v: Vm, s: Step)
    requires EnabledFor(v, s)
  {
    match s
    case Run(_, ok, ok2) =>
      Uncreated(v, RunJob(v, ok, ok2), ok, ok2)
    case Answer(_, empty, _) => empty && !(v.count == 0 && !v.checked)
    case _ => false
  }

  /** Nothing has gone wrong: the only error is that the VM exists, and a VM that has been freed
      before stage 7 was invalid or migrating. */
  ghost predicate Healthy(v: Vm) {
    && (v.phase.Job? || v.phase.Waiting? ==>
          v.error == NoError || (v.error == Exists && v.phase.Job? && v.count == 1 && !v.checked))
    && (v.phase.Exited? && v.entries == [] ==> !v.input.valid || Migrating(v.input.config.name))
  }

  /** The step from v to w made a query that could not be created. */
  predicate Uncreated(v: Vm, w: Vm, ok: bool, ok2: bool) {
    var made := |w.asked| - |v.asked|;
    (made >= 1 && !ok) || (made >= 2 && !ok2)
  }

  lemma Stage1Healthy(v: Vm, ok: bool, ok2: bool)
    requires v.phase.Job? && v.count == 1 && v.entries == [] && (v.error == NoError || (v.error == Exists && !v.checked))
    ensures var w := Stage1(v, ok, ok2); Uncreated(v, w, ok, ok2) || Healthy(w)
  {
    hide Migrating;
  }

  lemma Stage3Healthy(v: Vm, ok: bool, ok2: bool)
    requires v.phase.Job? && ((v.count == 3 && v.checked) || (v.count == 2 && !v.checked)) && v.error == NoError
    ensures var w := Stage3(v, ok, ok2); Uncreated(v, w, ok, ok2) || Healthy(w)
  {
    hide Stage5, Migrating;
  }

  lemma Stage4Healthy(v: Vm, ok: bool, ok2: bool)
    requires !v.ret && v.phase.Job? && v.count == 4 && v.error == NoError
    ensures var w := Stage4(v, ok, ok2); Uncreated(v, w, ok, ok2) || Healthy(w)
  {
    hide Stage5, ConfigCmp, Migrating;
    if v.checked && ConfigCmp(v.input.config, v.stored) == 0 {
      Stage5Healthy(v.(count := 5), ok, ok2);
    }
  }

  lemma Stage5Healthy(v: Vm, ok: bool, ok2: bool)
    requires !v.ret && v.phase.Job?
    ensures var w := Stage5(v, ok, ok2); Uncreated(v, w, ok, ok2) || Healthy(w)
  {
    hide Stage6, Migrating;
  }

  lemma Stage6Healthy(v: Vm, ok: bool)
    requires v.phase.Job?
    ensures var w := Stage6(v, ok); Uncreated(v, w, ok, true) || Healthy(w)
  {
    hide Stage7, Migrating;
    Stage7Healthy(v.(error := NoError, subs := v.subs + Forks(v.input), count := v.count + Forks(v.input) + 1, forks := v.forks + 1), ok);
  }

  lemma Stage7Healthy(v: Vm, ok: bool)
    ensures var w := Stage7(v, ok); Uncreated(v, w, ok, true) || Healthy(w)
  {
    hide Migrating;
  }

  lemma RunHealthy(v: Vm, ok: bool, ok2: bool)
    requires PollOk(v) && v.phase.Job? && Healthy(v) && (v.count == 3 ==> v.checked)
    ensures Uncreated(v, RunJob(v, ok, ok2), ok, ok2) || Healthy(RunJob(v, ok, ok2))
  {
    hide Migrating, ConfigCmp, Stage1, Stage3, Stage4, Stage5, Stage6, Stage7;
    match v.count
    case 0 =>
    case 1 => Stage1Healthy(v, ok, ok2);
    case 2 => if !v.checked { Stage3Healthy(v.(error := NoError), ok, ok2); }
    case 3 => Stage3Healthy(v, ok, ok2);
    case 4 => Stage4Healthy(v, ok, ok2);
    case 5 => Stage5Healthy(v, ok, ok2);
    case 6 => Stage6Healthy(v, ok);
    case 7 => Stage7Healthy(v, ok);
    case _ =>
  }

  lemma StepHealthy(v: Vm, s: Step)
    requires PollOk(v) && Traced(v) && Healthy(v) && EnabledFor(v, s)
    ensures Flaw(v, s) || Healthy(After(v, s))
  {
    hide Migrating, Sofar, RunJob;
    match s
    case Run(_, ok, ok2) => RunHealthy(v, ok, ok2);
    case Answer(_, empty, found) =>
    case Fail(_) =>
    case ExitSub(_, auth) =>
  }

  /** On its way the run has a step of the VM with a flaw. */
  ghost predicate FlawedIn(w: World, run: seq<Step>, i: nat)
    decreases |run|
  {
    run != [] && Enabled(w, run[0])
    && ((run[0].i == i && Flaw(w.vms[i], run[0])) || FlawedIn(Next(w, run[0]), run[1..], i))
  }

  lemma StepHealthyUnlessFlawed(w: World, s: Step, i: nat)
    requires AllTraced(w) && i < |w.vms| && Healthy(w.vms[i]) && Enabled(w, s)
    ensures Healthy(Next(w, s).vms[i]) || (s.i == i && Flaw(w.vms[i], s))
  {
    assert PollOk(w.vms[i]) && Traced(w.vms[i]);
    hide AllTraced, Flaw, Healthy, After, PollOk, Traced;
    if s.i == i {
      StepHealthy(w.vms[i], s);
    }
  }

  lemma {:induction false} RunHealthyUnlessFlawed(w: World, run: seq<Step>, w': World, i: nat)
    requires AllTraced(w) && i < |w.vms| && Healthy(w.vms[i]) && Reaches(w, run, w')
    ensures FlawedIn(w, run, i) || (i < |w'.vms| && Healthy(w'.vms[i]))
    decreases |run|
  {
    if run != [] {
      hide AllTraced, Flaw, Healthy, After;
      StepTraced(w, run[0]);
      StepHealthyUnlessFlawed(w, run[0], i);
      if !FlawedIn(w, run, i) {
        RunHealthyUnlessFlawed(Next(w, run[0]), run[1..], w', i);
      }
    }
  }

  /** A VM that has been freed without getting to stage 7 was invalid or migrating, or one of its
      steps had a flaw. */
  lemma FreedForAReason(inputs: seq<Input>, run: seq<Step>, w: World, i: nat)
    requires inputs != [] && Reaches(Begin(inputs), run, w) && i < |inputs| == |w.vms|
    requires w.vms[i].phase.Exited? && w.vms[i].entries == []
    ensures !inputs[i].valid || Migrating(inputs[i].config.name) || FlawedIn(Begin(inputs), run, i)
  {
    BeginTraced(inputs);
    InputStays(Begin(inputs), run, w, i);
    RunHealthyUnlessFlawed(Begin(inputs), run, w, i);
  }

  lemma {:induction false} InputStays(w: World, run: seq<Step>, w': World, i: nat)
    requires Reaches(w, run, w') && i < |w.vms|
    ensures i < |w'.vms| && w'.vms[i].input == w.vms[i].input
    decreases |run|
  {
    if run != [] {
      InputKept(w.vms[run[0].i], run[0]);
      hide After, EnabledFor;
      InputStays(Next(w, run[0]), run[1..], w', i);
    }
  }

  lemma InputKept(v: Vm, s: Step)
    requires EnabledFor(v, s)
    ensures After(v, s).input == v.input
  {
    hide Migrating, ConfigCmp;
  }

  lemma {:induction false} StuckByFailure(w: World, run: seq<Step>, w': World, i: nat)
    requires Reaches(w, run, w') && i < |w.vms| && !w.vms[i].phase.Stuck?
    requires forall k :: 0 <= k < |run| ==> run[k] != Fail(i)
    ensures i < |w'.vms| && !w'.vms[i].phase.Stuck?
    decreases |run|
  {
    if run != [] {
      assert run[0] != Fail(i);
      if run[0].i == i {
        NotStuck(w.vms[i], run[0]);
      }
      hide After, EnabledFor;
      StuckByFailure(Next(w, run[0]), run[1..], w', i);
    }
  }

  lemma NotStuck(v: Vm, s: Step)
    requires EnabledFor(v, s) && !v.phase.Stuck? && !s.Fail?
    ensures !After(v, s).phase.Stuck?
  {
    hide Migrating, ConfigCmp;
  }

  /** A run without a flaw or a failed query, in which nothing is left to happen, has brought every
      valid VM that is not migrating to stage 7, once and after all its sub-contexts, and its queries
      are those of its script. */
  lemma EveryVmArrives(inputs: seq<Input>, run: seq<Step>, w: World, i: nat)
    requires inputs != [] && Reaches(Begin(inputs), run, w) && i < |inputs|
    requires !FlawedIn(Begin(inputs), run, i) && forall k :: 0 <= k < |run| ==> run[k] != Fail(i)
    requires forall s :: !Enabled(w, s)
    ensures i < |w.vms| && w.vms[i].phase.Exited?
    ensures inputs[i].valid && !Migrating(inputs[i].config.name) ==>
              w.vms[i].entries == [0] && w.vms[i].asked == Script(w.vms[i]) + Revision(w.vms[i])
  {
    NestedJoin(inputs, run, w);
    UpdateEnds(inputs, run, w);
    StuckByFailure(Begin(inputs), run, w, i);
    RevisionsAreDue(inputs, run, w, i);
    hide Reaches, Begin, FlawedIn, Script, Revision;
    if w.vms[i].entries == [] {
      FreedForAReason(inputs, run, w, i);
    }
  }
}
