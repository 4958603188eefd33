// What a stop stops.
module KernelStops {
  import opened Prelude
  import opened KernelModel
  import opened KernelOwners
  import opened KernelBindings
  import opened KernelProcesses

  // -- process numbers --

  // Whatever runs in the second state ran in the first, or came up since.
  ghost predicate OnlyNew(k: Kernel, k': Kernel) {
    k.spawned <= k'.spawned && forall p :: p in k'.running ==> p in k.running || p > k.spawned
  }

  lemma {:induction false} BringUpAllNew(k: Kernel, order: seq<Binding>)
    ensures OnlyNew(k, BringUpAll(k, order))
  {
    if order != [] {
      BringUpAllNew(k, order[..|order| - 1]);
      BringUpAllSups(k, order[..|order| - 1]);
    }
  }

  lemma RespawnedNew(k: Kernel, contract: string, exiting: Option<nat>, spawn: Spawn)
    ensures OnlyNew(k, Respawned(k, contract, exiting, spawn))
  {}

  lemma ReboundNew(k: Kernel, contract: string, config: Config, spawn: Spawn)
    ensures OnlyNew(k, Rebound(k, contract, config, spawn))
  {}

  lemma StepNew(k: Kernel, st: Step)
    requires Legal(k, st)
    ensures OnlyNew(k, Apply(k, st))
  {
    match st {
      case Start(order) => BringUpAllNew(Older(k), order);
      case StartFails(order, n, spawn) => BringUpAllNew(k, order[..n]);
      case Restrict(withheld) =>
      case Grant(caller, cap) =>
      case Rebind(contract, config, spawn) => ReboundNew(k, contract, config, spawn);
      case Restart(i, exiting, spawn) => RespawnedNew(k, k.sups[i].binding.contract, exiting, spawn);
      case LostRestart(j, exiting, spawn) => RespawnedNew(k, k.lost[j].sup.binding.contract, exiting, spawn);
      case Stop =>
    }
  }

  lemma {:induction false} RunNew(k: Kernel, steps: seq<Step>, k': Kernel)
    requires Run(k, steps, k')
    ensures OnlyNew(k, k')
    decreases |steps|
  {
    if steps != [] {
      StepNew(k, steps[0]);
      RunNew(Apply(k, steps[0]), steps[1..], k');
    }
  }

  // -- the stop --

  // It stops the latest process of each listed supervisor and no other, and unbinds every contract.
  lemma StopsLatest(k: Kernel, p: nat)
    requires k.started
    ensures var k' := Apply(k, Stop);
            && k'.registry == map[] && !k'.started
            && (p in k'.running <==> p in k.running && forall i :: 0 <= i < |k.sups| ==> k.sups[i].process != p)
  {}

  // A process that it stops does not run in any later state either.
  lemma {:induction false} StopStops(k0: Kernel, steps0: seq<Step>, k: Kernel, steps: seq<Step>, k': Kernel, i: nat)
    requires Initial(k0) && Run(k0, steps0, k) && k.started && i < |k.sups|
    requires Run(Apply(k, Stop), steps, k')
    ensures k.sups[i].process !in k'.running
  {
    RunAgree(k0, steps0, k);
    StopsLatest(k, k.sups[i].process);
    assert All(k)[i] == k.sups[i];
    RunNew(Apply(k, Stop), steps, k');
  }

  lemma {:induction false} RunToIs(k: Kernel, steps: seq<Step>, k': Kernel)
    requires Run(k, steps, k')
    ensures RunTo(k, steps) == k'
    decreases |steps|
  {
    if steps != [] { RunToIs(Apply(k, steps[0]), steps[1..], k'); }
  }

  lemma {:induction false} AlwaysBoundLast(k: Kernel, steps: seq<Step>, k': Kernel)
    requires Run(k, steps, k') && AlwaysBound(k, steps) && k'.started
    ensures Bound(k')
    decreases |steps|
  {
    if steps != [] { AlwaysBoundLast(Apply(k, steps[0]), steps[1..], k'); }
  }

  // In a run whose steps leave nothing behind a stop leaves nothing running at all.
  lemma {:induction false} StopLeavesNothing(k0: Kernel, steps0: seq<Step>, k: Kernel)
    requires Initial(k0) && Run(k0, steps0, k) && k.started && LeavesNothing(k0, steps0)
    ensures Apply(k, Stop).running == {}
  {
    RunToIs(k0, steps0, k);
    BoundExact(k0, steps0);
    AlwaysBoundLast(k0, steps0, k);
    forall p ensures p !in Apply(k, Stop).running {
      StopsLatest(k, p);
      UpMembers(k.sups, p);
    }
  }

  // -- the supervisor that a rebind replaces --

  // The j-th lost supervisor is stopped, and serves no process that it did not serve before.
  predicate Retired(k: Kernel, k': Kernel, j: nat) {
    j < |k.lost| && j < |k'.lost| && k'.lost[j].stopped && k'.lost[j].sup.live <= k.lost[j].sup.live
  }

  lemma StoppedLostRestart(k: Kernel, i: nat, exiting: Option<nat>, spawn: Spawn, j: nat)
    requires i < |k.lost| && Exits(k.lost[i].sup, exiting) && j < |k.lost| && k.lost[j].stopped
    ensures Retired(k, LostRestarted(k, i, exiting, spawn), j)
  {}

  lemma StoppedRebind(k: Kernel, contract: string, config: Config, spawn: Spawn, j: nat)
    requires j < |k.lost| && k.lost[j].stopped
    ensures Retired(k, Rebound(k, contract, config, spawn), j)
  {}

  lemma StoppedBegin(k: Kernel, order: seq<Binding>, j: nat)
    requires j < |k.lost| && k.lost[j].stopped
    ensures Retired(k, Begin(k, order), j)
  {
    BringUpAllLost(Older(k), order);
  }

  lemma StoppedBeginFailed(k: Kernel, order: seq<Binding>, n: nat, spawn: Spawn, j: nat)
    requires n < |order| && j < |k.lost| && k.lost[j].stopped
    ensures Retired(k, BeginFailed(k, order, n, spawn), j)
  {
    BringUpAllLost(k, order[..n]);
  }

  lemma StoppedStep(k: Kernel, st: Step, j: nat)
    requires Legal(k, st) && j < |k.lost| && k.lost[j].stopped
    ensures Retired(k, Apply(k, st), j)
  {
    match st {
      case Start(order) => StoppedBegin(k, order, j);
      case StartFails(order, n, spawn) => StoppedBeginFailed(k, order, n, spawn, j);
      case Restrict(withheld) =>
      case Grant(caller, cap) =>
      case Rebind(contract, config, spawn) => StoppedRebind(k, contract, config, spawn, j);
      case Restart(i, exiting, spawn) =>
      case LostRestart(i, exiting, spawn) => StoppedLostRestart(k, i, exiting, spawn, j);
      case Stop =>
    }
  }

  lemma {:induction false} StoppedStays(k: Kernel, steps: seq<Step>, k': Kernel, j: nat)
    requires Run(k, steps, k') && j < |k.lost| && k.lost[j].stopped
    ensures Retired(k, k', j)
    decreases |steps|
  {
    if steps != [] {
      StoppedStep(k, steps[0], j);
      StoppedStays(Apply(k, steps[0]), steps[1..], k', j);
    }
  }

  // A rebind that comes up stops the old supervisor's latest process, and whatever exits later, the old
  // supervisor never brings up another.
  lemma {:induction false} RebindStops(
    k: Kernel, contract: string, config: Config, steps: seq<Step>, k': Kernel, i: nat)
    requires CanRebind(k, contract) && i == SupervisorOf(k.sups, contract)
    requires Run(Apply(k, Rebind(contract, config, Up)), steps, k')
    ensures |k.lost| < |k'.lost| && k'.lost[|k.lost|].sup.live <= k.sups[i].live - {k.sups[i].process}
    ensures k.sups[i].process <= k.spawned ==> k.sups[i].process !in k'.running
  {
    var k1 := Apply(k, Rebind(contract, config, Up));
    StoppedStays(k1, steps, k', |k.lost|);
    RunNew(k1, steps, k');
  }

  // -- what can still come --

  // Nothing runs, nothing resolves, and no supervisor is left to bring anything up.
  ghost predicate Quiet(k: Kernel) {
    && k.over && !k.started && k.running == {} && k.registry == map[]
    && (forall i :: 0 <= i < |k.sups| ==> k.sups[i].live == {} && k.sups[i].due == 0)
    && (forall j :: 0 <= j < |k.lost| ==> k.lost[j].sup.live == {} && (k.lost[j].stopped || k.lost[j].sup.due == 0))
  }

  lemma QuietStep(k: Kernel, st: Step)
    requires Quiet(k) && Legal(k, st)
    ensures Quiet(Apply(k, st))
  {}

  lemma {:induction false} QuietStays(k: Kernel, steps: seq<Step>, k': Kernel)
    requires Quiet(k) && Run(k, steps, k')
    ensures Quiet(k')
    decreases |steps|
  {
    if steps != [] {
      QuietStep(k, steps[0]);
      QuietStays(Apply(k, steps[0]), steps[1..], k');
    }
  }

  // In everything that can follow nothing runs and no contract resolves.
  ghost predicate DeadForGood(k: Kernel) {
    forall steps, k' :: Run(k, steps, k') ==> k'.running == {} && k'.registry == map[]
  }

  lemma StoppedQuiet(k: Kernel)
    requires Agree(k) && k.started && Apply(k, Stop).running == {}
    requires forall j :: 0 <= j < |k.lost| ==> k.lost[j].stopped || k.lost[j].sup.due == 0
    ensures Quiet(Apply(k, Stop))
  {
    var k' := Apply(k, Stop);
    KeepAgree(k, Stop);
    forall x, p | 0 <= x < |All(k')| ensures p !in All(k')[x].live {
      assert p in k'.running <==> Somewhere(All(k'), p);
    }
    forall i | 0 <= i < |k'.sups| ensures k'.sups[i].live == {} { assert All(k')[i] == k'.sups[i]; }
    forall j | 0 <= j < |k'.lost| ensures k'.lost[j].sup.live == {} {
      assert All(k')[|k'.sups| + j] == k'.lost[j].sup;
    }
  }

  // A lost supervisor with an exit to handle can bring a brick up after the stop.
  lemma {:induction false} LostComes(k: Kernel, j: nat)
    requires j < |k.lost| && !k.lost[j].stopped && k.lost[j].sup.due > 0
    ensures !DeadForGood(k)
  {
    var st := LostRestart(j, None, Up);
    assert [st][1..] == [] && Run(k, [st], Apply(k, st));
    assert k.spawned + 1 in Apply(k, st).running;
  }

  lemma {:induction false} QuietDead(k: Kernel)
    requires Quiet(k)
    ensures DeadForGood(k)
  {
    forall steps, k' | Run(k, steps, k') ensures k'.running == {} && k'.registry == map[] { QuietStays(k, steps, k'); }
  }

  lemma {:induction false} RunningNotDead(k: Kernel, p: nat)
    requires p in k.running
    ensures !DeadForGood(k)
  {
    var none: seq<Step> := [];
    assert Run(k, none, k);
  }

  // Exactly when a stop is the end of it: when every process that runs is the latest of some listed
  // supervisor, and no supervisor that the kernel has lost and not stopped has an exit to handle.
  lemma {:induction false} StopForGood(k0: Kernel, steps0: seq<Step>, k: Kernel)
    requires Initial(k0) && Run(k0, steps0, k) && k.started
    ensures DeadForGood(Apply(k, Stop)) <==>
            && (forall p :: p in k.running ==> exists i :: 0 <= i < |k.sups| && k.sups[i].process == p)
            && (forall j :: 0 <= j < |k.lost| ==> k.lost[j].stopped || k.lost[j].sup.due == 0)
  {
    var k' := Apply(k, Stop);
    RunAgree(k0, steps0, k);
    forall p { StopsLatest(k, p); }
    if p :| p in k'.running {
      RunningNotDead(k', p);
    } else if j :| 0 <= j < |k.lost| && !k.lost[j].stopped && k.lost[j].sup.due != 0 {
      LostComes(k', j);
    } else {
      StoppedQuiet(k);
      QuietDead(k');
    }
  }
}
