// What a start that fails part-way leaves behind, and what a later start makes of it.
module KernelFailures {
  import opened Prelude
  import opened Capabilities
  import opened KernelModel
  import opened KernelBindings
  import opened KernelSafety

  // -- until the next start --

  predicate Idle(k: Kernel) {
    !k.started && !k.over
  }

  predicate ExitOf(st: Step, p: nat) {
    (st.Restart? || st.LostRestart?) && st.exiting == Some(p)
  }

  ghost predicate Exited(steps: seq<Step>, p: nat) {
    exists n :: 0 <= n < |steps| && ExitOf(steps[n], p)
  }

  ghost predicate NoStart(steps: seq<Step>) {
    forall n :: 0 <= n < |steps| ==> !steps[n].Start?
  }

  ghost predicate NoGrant(steps: seq<Step>) {
    forall n :: 0 <= n < |steps| ==> !steps[n].Grant?
  }

  // The listed supervisors stay, their lists unless something is granted, and their processes unless
  // they exit.
  ghost predicate IdleStep(k: Kernel, st: Step, k': Kernel) {
    && Idle(k') && |k.sups| <= |k'.sups|
    && (forall p :: p in k.running && p !in k'.running ==> ExitOf(st, p))
    && (!st.Grant? ==> forall i :: 0 <= i < |k.sups| ==> k'.sups[i].caps == k.sups[i].caps)
  }

  lemma {:induction false} BringUpAllRunning(k: Kernel, order: seq<Binding>)
    ensures k.running <= BringUpAll(k, order).running
  {
    if order != [] { BringUpAllRunning(k, order[..|order| - 1]); }
  }

  lemma StartFailsIdle(k: Kernel, order: seq<Binding>, n: nat, spawn: Spawn)
    requires Idle(k) && n < |order|
    ensures IdleStep(k, StartFails(order, n, spawn), BeginFailed(k, order, n, spawn))
  {
    BringUpAllRest(k, order[..n]);
    BringUpAllSups(k, order[..n]);
    BringUpAllRunning(k, order[..n]);
  }

  lemma StepIdle(k: Kernel, st: Step)
    requires Idle(k) && Legal(k, st) && !st.Start?
    ensures IdleStep(k, st, Apply(k, st))
  {
    match st {
      case StartFails(order, n, spawn) => StartFailsIdle(k, order, n, spawn);
      case Restrict(withheld) =>
      case Grant(caller, cap) =>
      case Rebind(contract, config, spawn) =>
      case Restart(i, exiting, spawn) =>
      case LostRestart(j, exiting, spawn) =>
      case Stop =>
    }
  }

  lemma {:induction false} IdleStays(k: Kernel, steps: seq<Step>, k': Kernel)
    requires Idle(k) && Run(k, steps, k') && NoStart(steps)
    ensures Idle(k') && |k.sups| <= |k'.sups|
    ensures forall p :: p in k.running && p !in k'.running ==> Exited(steps, p)
    ensures NoGrant(steps) ==> forall i :: 0 <= i < |k.sups| ==> k'.sups[i].caps == k.sups[i].caps
    decreases |steps|
  {
    if steps != [] {
      var k1, rest := Apply(k, steps[0]), steps[1..];
      assert forall n :: 0 <= n < |rest| ==> rest[n] == steps[n + 1];
      StepIdle(k, steps[0]);
      IdleStays(k1, rest, k');
      forall p | p in k.running && p !in k'.running ensures Exited(steps, p) {
        if p in k1.running {
          var n :| 0 <= n < |rest| && ExitOf(rest[n], p);
          assert ExitOf(steps[n + 1], p);
        } else {
          assert ExitOf(steps[0], p);
        }
      }
    }
  }

  // The i-th brick that a failed start has brought up.
  function Survivor(k: Kernel, order: seq<Binding>, i: nat): Supervisor
    requires i < |order|
  {
    Newcomer(k, order[i], k.spawned + 1 + i)
  }

  lemma SurvivorsUp(k: Kernel, order: seq<Binding>, n: nat, spawn: Spawn)
    requires n < |order|
    ensures var k' := BeginFailed(k, order, n, spawn);
            && k'.started == k.started && k'.over == k.over && |k'.sups| == |k.sups| + n
            && forall i: nat :: i < n ==> k'.sups[|k.sups| + i] == Survivor(k, order, i)
  {
    BringUpAllRest(k, order[..n]);
    BringUpAllSups(k, order[..n]);
    var k' := BeginFailed(k, order, n, spawn);
    forall i: nat | i < n ensures k'.sups[|k.sups| + i] == Survivor(k, order, i) {
      assert order[..n][i] == order[i];
    }
  }

  lemma {:induction false} NewRunning(k: Kernel, order: seq<Binding>, p: nat)
    requires k.spawned < p <= k.spawned + |order|
    ensures p in BringUpAll(k, order).running
  {
    BringUpAllSups(k, order[..|order| - 1]);
    if p < k.spawned + |order| { NewRunning(k, order[..|order| - 1], p); }
  }

  lemma SurvivorRuns(k: Kernel, order: seq<Binding>, n: nat, spawn: Spawn, i: nat)
    requires i < n < |order|
    ensures Survivor(k, order, i).process in BeginFailed(k, order, n, spawn).running
  {
    NewRunning(k, order[..n], k.spawned + 1 + i);
  }

  // Until a start succeeds, whatever else is called, be it `stop`, `restrict_capabilities` or `rebind`:
  // the bricks that a failed start had brought up stay in the list and run on until they exit by
  // themselves, and what they may call changes only by grants.
  lemma {:induction false} FailedStartStays(
    k: Kernel, order: seq<Binding>, n: nat, spawn: Spawn, steps: seq<Step>, k': Kernel, i: nat)
    requires Legal(k, StartFails(order, n, spawn)) && i < n
    requires Run(BeginFailed(k, order, n, spawn), steps, k') && NoStart(steps)
    ensures var s := Survivor(k, order, i);
            && !k'.started && |k.sups| + i < |k'.sups|
            && (s.process in k'.running || Exited(steps, s.process))
            && (NoGrant(steps) ==> k'.sups[|k.sups| + i].caps == Effective(k, order[i].manifest))
  {
    SurvivorsUp(k, order, n, spawn);
    SurvivorRuns(k, order, n, spawn, i);
    IdleStays(BeginFailed(k, order, n, spawn), steps, k');
  }

  // -- the start that succeeds --

  // It finds them in the list, where from then on a restriction and a stop reach them.
  lemma StartFinds(k: Kernel, order: seq<Binding>)
    requires CanStart(k, order)
    ensures var k' := Begin(k, order);
            && |k'.sups| == |k.sups| + |order|
            && forall i :: 0 <= i < |k.sups| ==> k'.sups[i] == k.sups[i].(stale := true)
  {
    BringUpAllSups(Older(k), order);
  }

  // A rebind that comes up then replaces the older of a contract's two supervisors; the younger one, to
  // which the contract may have resolved, stays and runs on, but the contract no longer resolves to it.
  lemma {:induction false} RebindLeavesYounger(k: Kernel, contract: string, config: Config, j: nat)
    requires Agree(k) && CanRebind(k, contract) && SupervisorOf(k.sups, contract) < j < |k.sups|
    ensures var k', i := Rebound(k, contract, config, Up), SupervisorOf(k.sups, contract);
            && |k'.sups| == |k.sups| && k'.sups[j] == k.sups[j]
            && (k.sups[j].process in k.running ==> k.sups[j].process in k'.running)
            && k.sups[i].process !in k'.running && contract in k'.registry
            && k'.registry[contract] == k'.sups[i].process != k.sups[j].process
  {}

  // Every failed start of the run has failed at its first brick.
  ghost predicate AllAtFirst(steps: seq<Step>) {
    forall n :: 0 <= n < |steps| && steps[n].StartFails? ==> steps[n].n == 0
  }

  // `clean` says that every failed start so far has failed at its first brick.
  ghost predicate Counted(k: Kernel, clean: bool) {
    && (k.started ==> (OneEach(k.sups) <==> clean))
    && (!k.started && !k.over ==> (k.sups == [] <==> clean))
  }

  lemma SameContracts(sups: seq<Supervisor>, sups': seq<Supervisor>)
    requires |sups'| == |sups|
    requires forall i :: 0 <= i < |sups| ==> sups'[i].binding.contract == sups[i].binding.contract
    ensures OneEach(sups') <==> OneEach(sups)
  {}

  lemma StartOneEach(k: Kernel, order: seq<Binding>)
    requires Agree(k) && CanStart(k, order)
    ensures OneEach(Begin(k, order).sups) <==> k.sups == []
  {
    var sups := Begin(k, order).sups;
    NewListed(k, order);
    if k.sups == [] {
      ActiveDistinct(k.bindings);
      PermutedDistinct(order, Active(k.bindings));
      FirstOneEach(sups, order);
    } else {
      var i := ContractAgain(k, order);
      assert sups[|k.sups| + i].binding == order[i] && sups[0].binding == k.sups[0].binding;
    }
  }

  lemma NewListed(k: Kernel, order: seq<Binding>)
    ensures var sups := Begin(k, order).sups;
            && |sups| == |k.sups| + |order|
            && (forall i :: 0 <= i < |k.sups| ==> sups[i].binding == k.sups[i].binding)
            && (forall i :: |k.sups| <= i < |sups| ==> sups[i].binding == order[i - |k.sups|])
  {
    BringUpAllSups(Older(k), order);
  }

  lemma FirstOneEach(sups: seq<Supervisor>, order: seq<Binding>)
    requires Distinct(order) && |sups| == |order| && forall i :: 0 <= i < |sups| ==> sups[i].binding == order[i]
    ensures OneEach(sups)
  {}

  // Neither the contracts listed nor how far the life has come.
  ghost predicate SameListing(k: Kernel, k': Kernel) {
    && |k'.sups| == |k.sups|
    && (forall i :: 0 <= i < |k.sups| ==> k'.sups[i].binding.contract == k.sups[i].binding.contract)
    && ((k'.started == k.started && k'.over == k.over) || (!k'.started && k'.over))
  }

  lemma RestartedListing(k: Kernel, i: nat, exiting: Option<nat>, spawn: Spawn)
    requires i < |k.sups| && Exits(k.sups[i], exiting)
    ensures SameListing(k, Restarted(k, i, exiting, spawn))
  {}

  lemma LostRestartedListing(k: Kernel, j: nat, exiting: Option<nat>, spawn: Spawn)
    requires j < |k.lost| && Exits(k.lost[j].sup, exiting)
    ensures SameListing(k, LostRestarted(k, j, exiting, spawn))
  {}

  lemma ReboundListing(k: Kernel, contract: string, config: Config, spawn: Spawn)
    ensures SameListing(k, Rebound(k, contract, config, spawn))
  {}

  lemma StepListing(k: Kernel, st: Step)
    requires Legal(k, st) && !st.Start? && !st.StartFails?
    ensures SameListing(k, Apply(k, st))
  {
    match st {
      case Restrict(withheld) =>
      case Grant(caller, cap) =>
      case Rebind(contract, config, spawn) => ReboundListing(k, contract, config, spawn);
      case Restart(i, exiting, spawn) => RestartedListing(k, i, exiting, spawn);
      case LostRestart(j, exiting, spawn) => LostRestartedListing(k, j, exiting, spawn);
      case Stop =>
    }
  }

  lemma SameCounted(k: Kernel, k': Kernel, clean: bool)
    requires SameListing(k, k') && Counted(k, clean)
    ensures Counted(k', clean)
  {
    SameContracts(k.sups, k'.sups);
  }

  lemma StepCounted(k: Kernel, st: Step, clean: bool)
    requires Agree(k) && Legal(k, st) && Counted(k, clean)
    ensures Counted(Apply(k, st), clean && (st.StartFails? ==> st.n == 0))
  {
    if st.Start? {
      StartOneEach(k, st.order);
      BringUpAllRest(Older(k), st.order);
    } else if st.StartFails? {
      SurvivorsUp(k, st.order, st.n, st.spawn);
    } else {
      StepListing(k, st);
      SameCounted(k, Apply(k, st), clean);
    }
  }

  lemma AllAtFirstStep(steps: seq<Step>)
    requires steps != []
    ensures AllAtFirst(steps) <==> (steps[0].StartFails? ==> steps[0].n == 0) && AllAtFirst(steps[1..])
  {
    assert forall n :: 0 <= n < |steps[1..]| ==> steps[1..][n] == steps[n + 1];
    if AllAtFirst(steps[1..]) {
      assert forall n :: 1 <= n < |steps| ==> steps[1..][n - 1] == steps[n];
    }
  }

  lemma {:induction false} RunCounted(k: Kernel, steps: seq<Step>, k': Kernel, clean: bool)
    requires Agree(k) && Run(k, steps, k') && Counted(k, clean)
    ensures Counted(k', clean && AllAtFirst(steps))
    decreases |steps|
  {
    if steps != [] {
      var clean1 := clean && (steps[0].StartFails? ==> steps[0].n == 0);
      KeepAgree(k, steps[0]);
      StepCounted(k, steps[0], clean);
      RunCounted(Apply(k, steps[0]), steps[1..], k', clean1);
      AllAtFirstStep(steps);
    }
  }

  // In a started state no contract has two listed supervisors if and only if every start of the run
  // that failed has failed at its first brick.
  lemma {:induction false} OneEachExact(k: Kernel, steps: seq<Step>, k': Kernel)
    requires Initial(k) && Run(k, steps, k') && k'.started
    ensures OneEach(k'.sups) <==> AllAtFirst(steps)
  {
    InitialAgree(k);
    RunCounted(k, steps, k', true);
  }

  // Nothing is stale then.
  ghost predicate Fresh(k: Kernel) {
    && (k.started || k.over ==> forall i :: 0 <= i < |k.sups| ==> !k.sups[i].stale)
    && (!k.started && !k.over ==> k.sups == [])
  }

  lemma StepFresh(k: Kernel, st: Step)
    requires Fresh(k) && Legal(k, st) && (st.StartFails? ==> st.n == 0)
    ensures Fresh(Apply(k, st))
  {
    match st {
      case Start(order) =>
        BringUpAllSups(Older(k), order);
        BringUpAllRest(Older(k), order);
      case StartFails(order, n, spawn) => SurvivorsUp(k, order, n, spawn);
      case Restrict(withheld) =>
      case Grant(caller, cap) =>
      case Rebind(contract, config, spawn) =>
      case Restart(i, exiting, spawn) => RestartedLists(k, i, exiting, spawn);
      case LostRestart(j, exiting, spawn) => LostRestartedLists(k, j, exiting, spawn);
      case Stop => StoppedLists(k);
    }
  }

  lemma {:induction false} NothingStale(k: Kernel, steps: seq<Step>, k': Kernel)
    requires Fresh(k) && Run(k, steps, k') && AllAtFirst(steps)
    ensures Fresh(k')
    decreases |steps|
  {
    if steps != [] {
      var rest := steps[1..];
      assert forall n :: 0 <= n < |rest| ==> rest[n] == steps[n + 1];
      StepFresh(k, steps[0]);
      NothingStale(Apply(k, steps[0]), rest, k');
    }
  }

  // -- an example --

  lemma TwoActive(first: Binding, second: Binding)
    requires !first.disabled && !second.disabled
    ensures Active([first, second]) == [first, second]
  {
    assert [first, second][1..] == [second] && [second][1..] == [];
    assert Active([]) == [];
  }

  // A kernel of two bricks, of which the second does not come up in the first start.
  lemma HalfStarted(first: Binding, second: Binding, g: string) returns (k: Kernel, k1: Kernel)
    requires !first.disabled && !second.disabled && first.contract != second.contract && first.manifest.wants == [g]
    ensures Initial(k) && k.policy == Policy({g}, {}, map[], map[]) && k.bindings == [first, second]
    ensures CanStart(k, k.bindings) && k1 == BeginFailed(k, k.bindings, 1, Refused)
    ensures Idle(k1) && k1.bindings == k.bindings && k1.policy == k.policy
    ensures k1.sups == [Supervisor(first, {g}, 1, true, {1}, 0, false)] && 1 in k1.running
  {
    k := Kernel(Policy({g}, {}, map[], map[]), [first, second], [], [], map[], {}, false, false, map[], {}, 0);
    TwoActive(first, second);
    k1 := BeginFailed(k, k.bindings, 1, Refused);
    SurvivorsUp(k, k.bindings, 1, Refused);
    SurvivorRuns(k, k.bindings, 1, Refused, 0);
    BringUpAllRest(k, k.bindings[..1]);
    CoversOrder(g, g, g);
    assert k1.sups[0] == Survivor(k, k.bindings, 0);
    assert Effective(k, first.manifest) == {g};
  }

  lemma RestrictIdle(k: Kernel, withheld: set<string>)
    requires Idle(k)
    ensures Restricted(k, withheld) == k.(restricted := withheld)
  {}

  lemma Retried(k: Kernel, first: Binding, second: Binding, s: Supervisor)
    requires Idle(k) && k.bindings == [first, second] && k.sups == [s] && s.process in k.running
    ensures var k' := Begin(k, k.bindings);
            && k'.started && k'.restricted == k.restricted && |k'.sups| == 3
            && k'.sups[0] == s.(stale := true) && k'.sups[1].binding == first && s.process in k'.running
  {
    BringUpAllSups(Older(k), k.bindings);
    BringUpAllRest(Older(k), k.bindings);
    BringUpAllRunning(Older(k), k.bindings);
    assert Begin(k, k.bindings).sups[1] == Newcomer(Older(k), first, k.spawned + 1);
  }

  // A run: a start fails at its second brick, what the first holds is withheld, and the start is tried
  // again. The first contract then has two supervisors; the older one's brick still runs and still
  // passes a call that is withheld, although the one grant there is is covered by what is withheld.
  lemma RetriedStart(first: Binding, second: Binding, g: string, contract: string, name: string)
    returns (k: Kernel, steps: seq<Step>, k': Kernel)
    requires !first.disabled && !second.disabled && first.contract != second.contract && first.manifest.wants == [g]
    requires Covers(g, CallCapability(contract, name))
    ensures Initial(k) && k.policy == Policy({g}, {}, map[], map[]) && Run(k, steps, k') && k'.started
    ensures k'.restricted == {g} && |k'.sups| == 3
    ensures k'.sups[0].binding == first && k'.sups[1].binding == first
    ensures k'.sups[0].up && k'.sups[0].process in k'.running && k'.sups[0].stale
    ensures MayCall(k'.sups[0].caps, contract, name) && !Withheld(k'.sups[0].caps, g)
  {
    var k1;
    k, k1 := HalfStarted(first, second, g);
    TwoActive(first, second);
    steps := [StartFails(k.bindings, 1, Refused), Restrict({g}), Start(k.bindings)];
    RestrictIdle(k1, {g});
    var k2 := k1.(restricted := {g});
    k' := Begin(k2, k.bindings);
    RunThree(k, steps[0], steps[1], steps[2]);
    Retried(k2, first, second, k1.sups[0]);
    MayCallExact(k'.sups[0].caps, contract, name);
    HeldLets(k'.sups[0].caps, g, g, contract, name);
  }
}
