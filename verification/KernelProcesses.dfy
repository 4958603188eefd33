// Which runs keep the kernel's tables in step with the live brick processes.
module KernelProcesses {
  import opened Prelude
  import opened KernelBindings
  import opened KernelModel
  import opened KernelOwners

  // No supervisor serves a process but the listed ones theirs at hand.
  ghost predicate Tidy(k: Kernel) {
    && (forall i :: 0 <= i < |k.sups| ==> k.sups[i].live == if k.sups[i].up then {k.sups[i].process} else {})
    && (forall j :: 0 <= j < |k.lost| ==> k.lost[j].sup.live == {})
  }

  // In a started state the live processes are those of the handles at hand just when it is tidy.
  lemma TidyExact(k: Kernel)
    requires HandlesLive(k.sups) && Owned(All(k), k.running, k.spawned)
    ensures k.running == UpProcesses(k.sups) <==> Tidy(k)
  {
    if Tidy(k) {
      forall p ensures p in k.running <==> p in UpProcesses(k.sups) { TidyAt(k, p); }
    }
    if k.running == UpProcesses(k.sups) { OnlyHandlesTidy(k); }
  }

  lemma OnlyHandlesTidy(k: Kernel)
    requires HandlesLive(k.sups) && Owned(All(k), k.running, k.spawned) && k.running == UpProcesses(k.sups)
    ensures Tidy(k)
  {
    forall i | 0 <= i < |k.sups| ensures k.sups[i].live == if k.sups[i].up then {k.sups[i].process} else {} {
      OnlyHandles(k, i);
      assert All(k)[i] == k.sups[i];
    }
    forall j | 0 <= j < |k.lost| ensures k.lost[j].sup.live == {} {
      OnlyHandles(k, |k.sups| + j);
      assert All(k)[|k.sups| + j] == k.lost[j].sup;
    }
  }

  lemma TidyAt(k: Kernel, p: nat)
    requires Owned(All(k), k.running, k.spawned) && Tidy(k)
    ensures p in k.running <==> p in UpProcesses(k.sups)
  {
    var all := All(k);
    UpMembers(k.sups, p);
    assert p in k.running <==> Somewhere(all, p);
    assert forall x :: 0 <= x < |all| ==> all[x] == if x < |k.sups| then k.sups[x] else k.lost[x - |k.sups|].sup;
    if i :| 0 <= i < |k.sups| && k.sups[i].up && k.sups[i].process == p { assert p in all[i].live; }
  }

  lemma OnlyHandleAt(k: Kernel, x: nat, p: nat)
    requires Owned(All(k), k.running, k.spawned) && k.running == UpProcesses(k.sups)
    requires x < |All(k)| && p in All(k)[x].live
    ensures x < |k.sups| && k.sups[x].up && p == k.sups[x].process
  {
    var all := All(k);
    assert Somewhere(all, p) && p in k.running;
    UpMembers(k.sups, p);
    var i :| 0 <= i < |k.sups| && k.sups[i].up && k.sups[i].process == p;
    assert all[i] == k.sups[i] && Alone(all, x, p);
  }

  lemma OnlyHandles(k: Kernel, x: nat)
    requires HandlesLive(k.sups) && Owned(All(k), k.running, k.spawned) && k.running == UpProcesses(k.sups)
    requires x < |All(k)|
    ensures All(k)[x].live == if x < |k.sups| && k.sups[x].up then {k.sups[x].process} else {}
  {
    forall p | p in All(k)[x].live ensures x < |k.sups| && k.sups[x].up && p == k.sups[x].process {
      OnlyHandleAt(k, x, p);
    }
    assert x < |k.sups| ==> All(k)[x] == k.sups[x];
  }

  // The step leaves a process running that no handle of the kernel's list is for: a spawn broken off,
  // or a brick that comes up under a lost supervisor, which also binds the contract to it. Or it starts
  // the kernel over what an earlier start has left.
  predicate LeavesBehind(k: Kernel, st: Step) {
    match st
    case Start(_) => k.sups != [] || k.running != {}
    case Rebind(contract, _, spawn) => CanRebind(k, contract) && spawn.BrokenOff?
    case Restart(_, _, spawn) => k.started && spawn.BrokenOff?
    case LostRestart(j, _, spawn) => k.started && j < |k.lost| && !k.lost[j].stopped && Leaves(spawn)
    case _ => false
  }

  ghost predicate LeavesNothing(k: Kernel, steps: seq<Step>)
    decreases |steps|
  {
    steps != [] ==>
      !LeavesBehind(k, steps[0]) && (Legal(k, steps[0]) ==> LeavesNothing(Apply(k, steps[0]), steps[1..]))
  }

  // Every started state of the run is bound.
  ghost predicate AlwaysBound(k: Kernel, steps: seq<Step>)
    decreases |steps|
  {
    && (k.started ==> Bound(k))
    && (steps != [] && Legal(k, steps[0]) ==> AlwaysBound(Apply(k, steps[0]), steps[1..]))
  }

  // No exit is left to be handled while a handle is at hand.
  ghost predicate Calm(k: Kernel) {
    && Tidy(k)
    && (forall i :: 0 <= i < |k.sups| && k.sups[i].up ==> k.sups[i].due == 0)
    && (forall i :: 0 <= i < |k.sups| ==> k.sups[i].due <= 1)
    && Registered(k.sups, k.registry) && OneEach(k.sups)
  }

  lemma RegisterSwap(sups: seq<Supervisor>, registry: map<string, nat>, i: nat, s: Supervisor)
    requires Registered(sups, registry) && OneEach(sups) && i < |sups|
    requires s.binding.contract == sups[i].binding.contract
    ensures Registered(sups[i := s], registry[s.binding.contract := s.process]) && OneEach(sups[i := s])
  {
    var sups', registry' := sups[i := s], registry[s.binding.contract := s.process];
    forall c ensures ResolvesTo(sups', registry', c) {
      assert ResolvesTo(sups, registry, c);
      SupervisorSame(sups', sups, c);
      SupervisorAt(sups, i);
    }
  }

  lemma RegisteredSame(sups: seq<Supervisor>, sups': seq<Supervisor>, registry: map<string, nat>)
    requires Registered(sups, registry) && |sups'| == |sups|
    requires forall i :: 0 <= i < |sups| ==>
      sups'[i].binding.contract == sups[i].binding.contract && sups'[i].process == sups[i].process
    ensures Registered(sups', registry)
  {
    forall c ensures ResolvesTo(sups', registry, c) {
      assert ResolvesTo(sups, registry, c);
      SupervisorSame(sups', sups, c);
    }
  }

  lemma HandledCalm(s: Supervisor, exiting: Option<nat>, spawn: Spawn, p: nat)
    requires Exits(s, exiting) && !spawn.BrokenOff? && s.due <= 1 && (s.up ==> s.due == 0)
    requires s.live == if s.up then {s.process} else {}
    ensures var s' := Handled(s, exiting, spawn, p);
            s'.live == (if s'.up then {s'.process} else {}) && s'.due <= 1 && (s'.up ==> s'.due == 0)
  {}

  // A supervisor that handles an exit has one less to handle, and one more if what it spawns exits at
  // once; a process that comes up or is broken off is one more that it serves.
  lemma RestartExits(k: Kernel, i: nat, exiting: Option<nat>, spawn: Spawn)
    requires Legal(k, Restart(i, exiting, spawn)) && !k.over
    ensures var s, s' := k.sups[i], Apply(k, Restart(i, exiting, spawn)).sups[i];
            && s'.due + (if exiting.None? then 1 else 0) == s.due + (if spawn == Died then 1 else 0)
            && s'.up == (spawn == Up)
            && forall p :: p in s'.live <==>
                 (p in s.live && exiting != Some(p)) || (p == k.spawned + 1 && (spawn == Up || spawn == BrokenOff))
  {}

  // A rebind whose brick does not come up leaves no process and no supervisor behind, or a supervisor
  // with an exit to handle, or one with a process and no handle for it.
  lemma FailedRebindLeaves(k: Kernel, contract: string, config: Config, spawn: Spawn)
    requires CanRebind(k, contract) && spawn != Up
    ensures var k' := Apply(k, Rebind(contract, config, spawn));
            match spawn
            case Died => k'.running == k.running && |k'.lost| == |k.lost| + 1 && Waits(k'.lost[|k.lost|], 1, {})
            case BrokenOff =>
              && k'.running == k.running + {k.spawned + 1} && |k'.lost| == |k.lost| + 1
              && Waits(k'.lost[|k.lost|], 0, {k.spawned + 1})
            case _ => k' == k
  {}

  // A lost supervisor that never had a handle, with so many exits to handle and these processes.
  predicate Waits(l: Lost, exits: nat, live: set<nat>) {
    !l.stopped && !l.sup.up && l.sup.process == 0 && l.sup.due == exits && l.sup.live == live
  }

  lemma SetCalm(k: Kernel, k': Kernel, i: nat, s: Supervisor)
    requires Calm(k) && i < |k.sups| && s.binding == k.sups[i].binding
    requires s.live == (if s.up then {s.process} else {}) && s.due <= 1 && (s.up ==> s.due == 0)
    requires k'.sups == k.sups[i := s] && k'.lost == k.lost
    requires || k'.registry == k.registry[s.binding.contract := s.process]
             || (k'.registry == k.registry && s.process == k.sups[i].process)
    ensures Calm(k')
  {
    if k'.registry == k.registry[s.binding.contract := s.process] {
      RegisterSwap(k.sups, k.registry, i, s);
    } else {
      RegisteredSame(k.sups, k'.sups, k.registry);
    }
  }

  lemma RestartCalm(k: Kernel, i: nat, exiting: Option<nat>, spawn: Spawn)
    requires Calm(k) && !k.over
    requires i < |k.sups| && Exits(k.sups[i], exiting) && !spawn.BrokenOff?
    ensures Calm(Restarted(k, i, exiting, spawn))
  {
    HandledCalm(k.sups[i], exiting, spawn, k.spawned + 1);
    HandledIs(k.sups[i], exiting, spawn, k.spawned + 1);
    SetCalm(k, Restarted(k, i, exiting, spawn), i, Handled(k.sups[i], exiting, spawn, k.spawned + 1));
  }

  lemma RebindCalm(k: Kernel, contract: string, config: Config, spawn: Spawn)
    requires Calm(k) && CanRebind(k, contract) && !spawn.BrokenOff?
    ensures Calm(Rebound(k, contract, config, spawn))
  {
    var k' := Rebound(k, contract, config, spawn);
    var i := SupervisorOf(k.sups, contract);
    if spawn.Up? { RegisterSwap(k.sups, k.registry, i, k'.sups[i]); }
  }

  // What a start does to the contract table.
  lemma {:induction false} BringUpAllBinds(k: Kernel, order: seq<Binding>, c: string)
    requires Distinct(order)
    ensures var k' := BringUpAll(k, order);
            && (forall i :: 0 <= i < |order| && order[i].contract == c ==>
                  c in k'.registry && k'.registry[c] == k.spawned + 1 + i)
            && ((forall i :: 0 <= i < |order| ==> order[i].contract != c) ==>
                  (c in k'.registry <==> c in k.registry) && (c in k.registry ==> k'.registry[c] == k.registry[c]))
  {
    if order != [] {
      var front, b := order[..|order| - 1], order[|order| - 1];
      BringUpAllBinds(k, front, c);
      BringUpAllSups(k, front);
      assert forall i :: 0 <= i < |front| ==> front[i] == order[i];
      assert BringUpAll(k, order).registry == BringUpAll(k, front).registry[b.contract := k.spawned + |order|];
    }
  }

  lemma {:induction false} OrderDistinct(k: Kernel, order: seq<Binding>)
    requires CanStart(k, order) && Distinct(k.bindings)
    ensures Distinct(order)
  {
    ActiveDistinct(k.bindings);
    PermutedDistinct(order, Active(k.bindings));
  }

  lemma {:induction false} OnlyActive(k: Kernel, order: seq<Binding>, c: string)
    requires Agree(k) && CanStart(k, order) && forall i :: 0 <= i < |order| ==> order[i].contract != c
    ensures c !in k.registry
  {
    OrderActive(k, order);
    assert forall b :: b in order ==> b.contract != c;
    if c in k.registry { BornActive(k, c, k.registry[c]); }
  }

  lemma {:induction false} InOrderResolves(
    sups: seq<Supervisor>, order: seq<Binding>, first: nat, registry: map<string, nat>, c: string)
    requires |sups| == |order|
    requires forall i :: 0 <= i < |sups| ==> sups[i].binding == order[i] && sups[i].process == first + i
    requires forall i :: 0 <= i < |order| && order[i].contract == c ==> c in registry && registry[c] == first + i
    requires (forall i :: 0 <= i < |order| ==> order[i].contract != c) ==> c !in registry
    ensures ResolvesTo(sups, registry, c)
  {
    var i := SupervisorOf(sups, c);
    if i < |sups| { assert order[i].contract == c; }
  }

  lemma {:induction false} BroughtUpRegistered(k: Kernel, order: seq<Binding>, c: string)
    requires Agree(k) && CanStart(k, order) && k.sups == []
    ensures ResolvesTo(BringUpAll(k, order).sups, BringUpAll(k, order).registry, c)
  {
    var k' := BringUpAll(k, order);
    OrderDistinct(k, order);
    BringUpAllBinds(k, order, c);
    FirstSups(k, order);
    if forall i :: 0 <= i < |order| ==> order[i].contract != c { OnlyActive(k, order, c); }
    InOrderResolves(k'.sups, order, k.spawned + 1, k'.registry, c);
  }

  lemma {:induction false} FirstSups(k: Kernel, order: seq<Binding>)
    requires k.sups == []
    ensures var sups := BringUpAll(k, order).sups;
            |sups| == |order| && forall i :: 0 <= i < |sups| ==>
              sups[i].binding == order[i] && sups[i].process == k.spawned + 1 + i && sups[i].up && sups[i].due == 0 &&
              sups[i].live == {sups[i].process}
  {
    var sups := BringUpAll(k, order).sups;
    BringUpAllSups(k, order);
    forall i | 0 <= i < |sups|
      ensures sups[i].binding == order[i] && sups[i].process == k.spawned + 1 + i && sups[i].up && sups[i].due == 0
      ensures sups[i].live == {sups[i].process}
    {
      assert sups[i] == Newcomer(k, order[i], k.spawned + 1 + i);
    }
  }

  lemma {:induction false} NothingLives(k: Kernel, j: nat)
    requires Owned(All(k), k.running, k.spawned) && k.running == {} && j < |k.lost|
    ensures k.lost[j].sup.live == {}
  {
    var x := |k.sups| + j;
    assert x < |All(k)| && All(k)[x] == k.lost[j].sup;
    forall p ensures p !in All(k)[x].live { assert p in k.running <==> Somewhere(All(k), p); }
  }

  lemma {:induction false} StartTidy(k: Kernel, order: seq<Binding>)
    requires Owned(All(k), k.running, k.spawned) && k.sups == [] && k.running == {}
    ensures Tidy(BringUpAll(k, order))
  {
    FirstSups(k, order);
    BringUpAllLost(k, order);
    forall j | 0 <= j < |k.lost| ensures k.lost[j].sup.live == {} { NothingLives(k, j); }
  }

  lemma {:induction false} OrderOneEach(sups: seq<Supervisor>, order: seq<Binding>)
    requires Distinct(order) && |sups| == |order| && forall i :: 0 <= i < |sups| ==> sups[i].binding == order[i]
    ensures OneEach(sups)
  {}

  lemma {:induction false} StartCalm(k: Kernel, order: seq<Binding>)
    requires Agree(k) && CanStart(k, order) && k.sups == [] && k.running == {}
    ensures Calm(Begin(k, order))
  {
    var k' := BringUpAll(k, order);
    assert Older(k) == k;
    StartTidy(k, order);
    FirstSups(k, order);
    OrderDistinct(k, order);
    OrderOneEach(k'.sups, order);
    forall c ensures ResolvesTo(k'.sups, k'.registry, c) { BroughtUpRegistered(k, order, c); }
    BegunCalm(k');
  }

  lemma BegunCalm(k: Kernel)
    requires Tidy(k) && Registered(k.sups, k.registry) && OneEach(k.sups)
    requires forall i :: 0 <= i < |k.sups| ==> k.sups[i].due == 0
    ensures Calm(k.(started := true))
  {}

  lemma SameCalm(k: Kernel, k': Kernel)
    requires Calm(k) && SameButCaps(k, k')
    ensures Calm(k')
  {
    RegisteredSame(k.sups, k'.sups, k.registry);
  }

  lemma LostRestartCalm(k: Kernel, j: nat, exiting: Option<nat>, spawn: Spawn)
    requires Calm(k) && j < |k.lost| && Exits(k.lost[j].sup, exiting) && (k.lost[j].stopped || !Leaves(spawn))
    ensures Calm(LostRestarted(k, j, exiting, spawn))
  {}

  lemma KeepCalm(k: Kernel, st: Step)
    requires Agree(k) && Legal(k, st) && (k.started ==> Calm(k)) && !LeavesBehind(k, st)
    ensures Apply(k, st).started ==> Calm(Apply(k, st))
  {
    match st {
      case Start(order) => StartCalm(k, order);
      case StartFails(order, n, spawn) => BringUpAllRest(k, order[..n]);
      case Restrict(withheld) =>
        if k.started {
          RestrictSame(k, withheld);
          SameCalm(k, Restricted(k, withheld));
        }
      case Grant(caller, cap) =>
        if k.started {
          GrantSame(k, caller, cap);
          SameCalm(k, Granted(k, caller, cap));
        }
      case Rebind(contract, config, spawn) =>
        if CanRebind(k, contract) { RebindCalm(k, contract, config, spawn); }
      case Restart(i, exiting, spawn) => if k.started { RestartCalm(k, i, exiting, spawn); }
      case LostRestart(j, exiting, spawn) => if k.started { LostRestartCalm(k, j, exiting, spawn); }
      case Stop =>
    }
  }

  // After a step that leaves something behind the state is not bound.
  lemma LeftUntidy(k: Kernel, st: Step)
    requires Agree(k) && Legal(k, st) && !st.Start? && LeavesBehind(k, st)
    ensures Apply(k, st).started && !Tidy(Apply(k, st))
  {
    var p, k' := k.spawned + 1, Apply(k, st);
    match st {
      case Rebind(contract, config, spawn) => assert p in k'.lost[|k.lost|].sup.live;
      case Restart(i, exiting, spawn) => assert p in k'.sups[i].live && !k'.sups[i].up;
      case LostRestart(j, exiting, spawn) => assert p in k'.lost[j].sup.live;
      case _ =>
    }
  }

  // The contract of a brick listed before resolves to the new one.
  lemma StartedOver(k: Kernel, order: seq<Binding>)
    requires Agree(k) && CanStart(k, order) && k.sups != []
    ensures var c, k' := k.sups[0].binding.contract, Begin(k, order);
            && SupervisorOf(k'.sups, c) == 0 && k'.sups[0].process == k.sups[0].process
            && c in k'.registry && k'.registry[c] != k.sups[0].process
  {
    var c, older, k' := k.sups[0].binding.contract, Older(k), Begin(k, order);
    BringUpAllSups(older, order);
    SupervisorAt(k'.sups, 0);
    var i := ContractAgain(k, order);
    OrderDistinct(k, order);
    BringUpAllBinds(older, order, c);
  }

  lemma StartLeft(k: Kernel, order: seq<Binding>)
    requires Agree(k) && CanStart(k, order) && (k.sups != [] || k.running != {})
    ensures !Bound(Begin(k, order))
  {
    var k' := Begin(k, order);
    if k.sups != [] {
      StartedOver(k, order);
      assert !ResolvesTo(k'.sups, k'.registry, k.sups[0].binding.contract);
    } else {
      var p :| p in k.running;
      assert Somewhere(All(k), p);
      var j :| 0 <= j < |All(k)| && p in All(k)[j].live;
      BringUpAllLost(Older(k), order);
      assert k'.lost[j].sup == k.lost[j].sup;
      StartAgree(k, order);
      TidyExact(k');
    }
  }

  lemma LeftUnbound(k: Kernel, st: Step)
    requires Agree(k) && Legal(k, st) && LeavesBehind(k, st)
    ensures Apply(k, st).started && !Bound(Apply(k, st))
  {
    if st.Start? {
      StartLeft(k, st.order);
    } else {
      LeftUntidy(k, st);
      KeepAgree(k, st);
      TidyExact(Apply(k, st));
    }
  }

  lemma CalmBound(k: Kernel)
    requires Agree(k) && k.started && Calm(k)
    ensures Bound(k)
  {
    TidyExact(k);
  }

  lemma {:induction false} AlwaysBoundFrom(k: Kernel, steps: seq<Step>)
    requires Agree(k) && (k.started ==> Calm(k)) && Run(k, steps, RunTo(k, steps))
    ensures AlwaysBound(k, steps) <==> LeavesNothing(k, steps)
    decreases |steps|
  {
    if k.started { CalmBound(k); }
    if steps != [] {
      var k' := Apply(k, steps[0]);
      KeepAgree(k, steps[0]);
      if LeavesBehind(k, steps[0]) {
        LeftUnbound(k, steps[0]);
      } else {
        KeepCalm(k, steps[0]);
        AlwaysBoundFrom(k', steps[1..]);
      }
    }
  }

  // Over a run the registry resolves each contract to its supervisor's latest process, and only the
  // processes of the handles at hand are alive, in every started state, if and only if no spawn of a
  // started kernel was broken off, no brick came up under a supervisor lost, and the start that
  // succeeded found nothing listed and nothing running.
  lemma {:induction false} BoundExact(k: Kernel, steps: seq<Step>)
    requires Initial(k) && Run(k, steps, RunTo(k, steps))
    ensures AlwaysBound(k, steps) <==> LeavesNothing(k, steps)
  {
    AlwaysBoundFrom(k, steps);
  }

  // A lost supervisor holds the contract of a listed one whose brick is up.
  ghost predicate Usurped(k: Kernel, i: nat) {
    && k.started && i < |k.sups| && k.sups[i].up && k.sups[i].process in k.running
    && var c := k.sups[i].binding.contract;
       c in k.registry && k.registry[c] != k.sups[i].process && TakenOver(k.lost, c, k.registry[c])
  }

  predicate FailedRebind(st: Step) {
    st.Rebind? && st.spawn.Died?
  }

  // A run: a rebind fails because the new brick exits while it is initialised; its supervisor is not in
  // the kernel's list, but it handles that exit, brings the brick up after all, and the contract
  // resolves to it from then on, although the old brick is still up.
  lemma FailedRebindTakesOver() returns (k: Kernel, steps: seq<Step>, k': Kernel)
    ensures Initial(k) && Run(k, steps, k') && Usurped(k', 0)
    ensures |steps| > 1 && FailedRebind(steps[1])
  {
    var b := Binding("c", Manifest("b", []), map[], false);
    k := Kernel(Capabilities.Policy({}, {}, map[], map[]), [b], [], [], map[], {}, false, false, map[], {}, 0);
    assert Active([b]) == [b] by { assert Active([]) == []; }
    assert Older(k) == k;
    assert BringUpAll(k, [b]) == BringUp(k, b) by { assert [b][..0] == []; }
    steps := [Start([b]), Rebind("c", map[], Died), LostRestart(0, None, Up)];
    var k1 := Apply(k, steps[0]);
    var k2 := Apply(k1, steps[1]);
    k' := Apply(k2, steps[2]);
    assert steps[1..] == [steps[1], steps[2]] && steps[1..][1..] == [steps[2]] && [steps[2]][1..] == [];
    assert Run(k2, [steps[2]], k') && Run(k1, steps[1..], k');
    assert k'.lost[0].sup.binding.contract == "c" && k'.lost[0].sup.process == 2;
  }
}
