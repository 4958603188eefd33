// The Kernel object: its fields, and the methods that update them.
module KernelClass {
  import opened Prelude
  import opened Capabilities
  import opened KernelModel
  import opened KernelStart

  lemma {:induction false} ActiveSnoc(bindings: seq<Binding>, b: Binding)
    ensures Active(bindings + [b]) == Active(bindings) + if b.disabled then [] else [b]
  {
    if bindings == [] {
    } else {
      var rest := bindings[1..];
      ActiveSnoc(rest, b);
      assert (bindings + [b])[1..] == rest + [b];
      assert Active(bindings + [b]) == (if bindings[0].disabled then [] else [bindings[0]]) + Active(rest + [b]);
    }
  }

  // Where `ReplaceFirst` puts the binding.
  lemma {:induction false} ReplaceAt(bindings: seq<Binding>, b: Binding, n: nat)
    requires n <= |bindings| && forall i :: 0 <= i < n ==> bindings[i].contract != b.contract
    requires n < |bindings| ==> bindings[n].contract == b.contract
    ensures ReplaceFirst(bindings, b) == if n < |bindings| then bindings[n := b] else bindings
  {
    if n == 0 {
      assert bindings == [] || [b] + bindings[1..] == bindings[0 := b];
    } else {
      ReplaceAt(bindings[1..], b, n - 1);
      assert bindings == [bindings[0]] + bindings[1..];
    }
  }

  lemma {:induction false} SupervisorIs(sups: seq<Supervisor>, contract: string, n: nat)
    requires n <= |sups| && forall i :: 0 <= i < n ==> sups[i].binding.contract != contract
    requires n < |sups| ==> sups[n].binding.contract == contract
    ensures SupervisorOf(sups, contract) == n
  {
    if n > 0 { SupervisorIs(sups[1..], contract, n - 1); }
  }

  ghost predicate NamesWants(byName: map<string, seq<string>>, bindings: seq<Binding>) {
    forall n :: WantsOf(Active(bindings), n) == if n in byName then byName[n] else []
  }

  lemma {:induction false} WantsSnoc(bindings: seq<Binding>, b: Binding, n: string)
    ensures WantsOf(Active(bindings + [b]), n) ==
            if !b.disabled && b.manifest.name == n then b.manifest.wants else WantsOf(Active(bindings), n)
  {
    ActiveSnoc(bindings, b);
    assert Active(bindings) + [] == Active(bindings);
    assert (Active(bindings) + [b])[..|Active(bindings)|] == Active(bindings);
  }

  // `restrict_capabilities` after the names in `done`: their lists are recomputed and handed out.
  function Fresh(k: KernelModel.Kernel, n: string): set<string> {
    KernelModel.Effective(k, Manifest(n, WantsOf(Active(k.bindings), n)))
  }

  function FreshEffective(k: KernelModel.Kernel, done: set<string>): map<string, set<string>> {
    map n | n in k.effective :: if n in done then Fresh(k, n) else k.effective[n]
  }

  function FreshSups(k: KernelModel.Kernel, done: set<string>): seq<Supervisor> {
    seq(|k.sups|, j requires 0 <= j < |k.sups| =>
      if Name(k.sups[j]) in done then Given(k.sups[j], Fresh(k, Name(k.sups[j]))) else k.sups[j])
  }

  function Recomputed(k: KernelModel.Kernel, done: set<string>): KernelModel.Kernel {
    k.(effective := FreshEffective(k, done), sups := FreshSups(k, done), lost := Unshared(k.lost, done))
  }

  lemma FreshAll(k: KernelModel.Kernel, withheld: set<string>)
    requires k.started
    ensures var k1 := k.(restricted := withheld);
            Restricted(k, withheld) == Recomputed(k1, k.effective.Keys) && Recomputed(k1, {}) == k1
  {
    var k1 := k.(restricted := withheld);
    assert Restricted(k, withheld).effective == FreshEffective(k1, k.effective.Keys);
    assert Restricted(k, withheld).sups == FreshSups(k1, k.effective.Keys);
    assert Restricted(k, withheld).lost == Unshared(k1.lost, k.effective.Keys);
    assert FreshEffective(k1, {}) == k1.effective && FreshSups(k1, {}) == k1.sups && Unshared(k1.lost, {}) == k1.lost;
  }

  lemma FreshStep(k: KernelModel.Kernel, done: set<string>, name: string, sups: seq<Supervisor>)
    requires name in k.effective && |sups| == |k.sups|
    requires forall j :: 0 <= j < |sups| ==>
      sups[j] == var s := FreshSups(k, done)[j]; if Name(s) == name then Given(s, Fresh(k, name)) else s
    ensures FreshEffective(k, done)[name := Fresh(k, name)] == FreshEffective(k, done + {name})
    ensures sups == FreshSups(k, done + {name})
    ensures Unshared(Unshared(k.lost, done), {name}) == Unshared(k.lost, done + {name})
  {}

  function Processes(sups: seq<Supervisor>): set<nat> {
    set s | s in sups :: s.process
  }

  datatype Admission = Forwarded(process: nat) | Denied | NotBound

  class Kernel {
    const policy: Policy
    var bindings: seq<Binding>
    var sups: seq<Supervisor>
    // supervisor objects that only their processes still refer to
    var lost: seq<Lost>
    var effective: map<string, set<string>>
    var restricted: set<string>
    var started: bool
    // the supervisors have been stopped
    var over: bool
    var registry: map<string, nat>
    // what the operating system holds
    var running: set<nat>
    var spawned: nat

    ghost function State(): KernelModel.Kernel
      reads this
    {
      KernelModel.Kernel(policy, bindings, sups, lost, effective, restricted, started, over, registry, running, spawned)
    }

    constructor (policy: Policy, bindings: seq<Binding>)
      requires Distinct(bindings)
      ensures Initial(State()) && this.policy == policy && this.bindings == bindings
    {
      this.policy, this.bindings := policy, bindings;
      sups, lost, effective, restricted, started, over := [], [], map[], {}, false, false;
      registry, running, spawned := map[], {}, 0;
    }

    // `_compute_effective`.
    method ComputeEffective(name: string, wants: seq<string>) returns (caps: set<string>)
      ensures caps == KernelModel.Effective(State(), Manifest(name, wants))
    {
      var allowed := EffectiveCapabilities(policy, name, wants);
      caps := set c | c in allowed && !GrantedByAny(restricted, c);
    }

    // A brick process that is left running, with a handle or without.
    method Spawned() returns (p: nat)
      modifies this`running, this`spawned
      ensures p == spawned == old(spawned) + 1 && running == old(running) + {p}
    {
      p := spawned + 1;
      spawned := p;
      running := running + {p};
    }

    // `start`, of which the first n bricks come up. If those are not all, the next one's spawn ends like
    // this and `start` raises. What an earlier start has left in the list stays there.
    method Start(n: nat, spawn: Spawn) returns (ok: bool)
      requires n <= |StartOrder(Active(bindings))| && !spawn.Up?
      modifies this
      ensures ok == (old(started) || n == |StartOrder(Active(old(bindings)))|)
      ensures var order := StartOrder(Active(old(bindings)));
              State() ==
              if old(started) then old(State())
              else if n == |order| then Begin(old(State()), order)
              else BeginFailed(old(State()), order, n, spawn)
    {
      if started { return true; }
      var order := StartOrder(Active(bindings));
      ok := n == |order|;
      if ok { sups := Aged(sups); }
      BringUpFirst(order, n);
      if ok {
        assert order[..n] == order;
        started := true;
      } else {
        var b := order[n];
        var caps := ComputeEffective(b.manifest.name, b.manifest.wants);
        Keep(b.manifest.name, caps);
        Stray(b, caps, spawn, true);
      }
    }

    // A list the kernel keeps for a name, in place of the one before.
    method Keep(name: string, caps: set<string>)
      modifies this`effective, this`lost
      ensures effective == old(effective)[name := caps] && lost == Unshared(old(lost), {name})
    {
      effective := effective[name := caps];
      lost := Unshared(lost, {name});
    }

    // The loop of `start`, as far as all goes well.
    method BringUpFirst(order: seq<Binding>, n: nat)
      requires n <= |order|
      modifies this
      ensures State() == BringUpAll(old(State()), order[..n])
    {
      ghost var k := State();
      for i := 0 to n
        invariant State() == BringUpAll(k, order[..i])
      {
        BringUpOne(order[i]);
        assert order[..i + 1][..i] == order[..i];
      }
    }

    // Its body.
    method BringUpOne(b: Binding)
      modifies this
      ensures State() == BringUp(old(State()), b)
    {
      var caps := ComputeEffective(b.manifest.name, b.manifest.wants);
      Keep(b.manifest.name, caps);
      var p := Spawned();
      registry := registry[b.contract := p];
      sups := sups + [Supervisor(b, caps, p, true, {p}, 0, false)];
    }

    // What is left of a brick that does not come up.
    method Stray(b: Binding, caps: set<string>, spawn: Spawn, shares: bool)
      requires !spawn.Up?
      modifies this`lost, this`running, this`spawned
      ensures State() == Strayed(old(State()), b, caps, spawn, shares)
    {
      match spawn {
        case Refused =>
        case Died =>
          lost := lost + [Lost(Supervisor(b, caps, 0, false, {}, 1, false), false, shares)];
        case BrokenOff =>
          var p := Spawned();
          lost := lost + [Lost(Supervisor(b, caps, 0, false, {p}, 0, false), false, shares)];
      }
    }

    // The dictionary `by_name`.
    method WantsByName() returns (byName: map<string, seq<string>>)
      ensures NamesWants(byName, bindings)
    {
      byName := map[];
      for i := 0 to |bindings|
        invariant NamesWants(byName, bindings[..i])
      {
        var b := bindings[i];
        assert bindings[..i + 1] == bindings[..i] + [b];
        forall n { WantsSnoc(bindings[..i], b, n); }
        if !b.disabled { byName := byName[b.manifest.name := b.manifest.wants]; }
      }
      assert bindings[..|bindings|] == bindings;
    }

    // Give the named brick's supervisors this capability list.
    method Hand(name: string, caps: set<string>)
      modifies this`sups
      ensures |sups| == |old(sups)|
      ensures forall j :: 0 <= j < |sups| ==>
        sups[j] == if Name(old(sups)[j]) == name then Given(old(sups)[j], caps) else old(sups)[j]
    {
      ghost var was := sups;
      for j := 0 to |sups|
        invariant |sups| == |was|
        invariant forall i :: j <= i < |sups| ==> sups[i] == was[i]
        invariant forall i :: 0 <= i < j ==>
          sups[i] == if Name(was[i]) == name then Given(was[i], caps) else was[i]
      {
        if Name(sups[j]) == name { sups := sups[j := Given(sups[j], caps)]; }
      }
    }

    // `restrict_capabilities` has recomputed the names in `done` of state `k`.
    ghost predicate At(k: KernelModel.Kernel, done: set<string>)
      reads this
    {
      State() == Recomputed(k, done) && effective.Keys == k.effective.Keys
    }

    // The body of its loop over the names.
    method Recompute(name: string, wants: seq<string>, ghost k: KernelModel.Kernel, ghost done: set<string>)
      requires name in k.effective && wants == WantsOf(Active(k.bindings), name)
      requires At(k, done)
      modifies this`effective, this`sups, this`lost
      ensures At(k, done + {name})
    {
      var caps := ComputeEffective(name, wants);
      Keep(name, caps);
      Hand(name, caps);
      FreshStep(k, done, name, sups);
    }

    method RecomputeAll(byName: map<string, seq<string>>, ghost k: KernelModel.Kernel)
      requires At(k, {})
      requires NamesWants(byName, k.bindings)
      modifies this`effective, this`sups, this`lost
      ensures At(k, k.effective.Keys)
    {
      var left := effective.Keys;
      ghost var all, done := left, {};
      while left != {}
        invariant done !! left && done + left == all
        invariant At(k, done)
        decreases left
      {
        var name :| name in left;
        var wants := if name in byName then byName[name] else [];
        Recompute(name, wants, k, done);
        left := left - {name};
        done := done + {name};
      }
      assert done == all;
    }

    // `restrict_capabilities`.
    method RestrictCapabilities(withheld: set<string>)
      modifies this
      ensures State() == Restricted(old(State()), withheld)
    {
      ghost var k := State();
      restricted := withheld;
      if !started { return; }
      FreshAll(k, withheld);
      var byName := WantsByName();
      RecomputeAll(byName, State());
    }

    // `_grant_dynamic`.
    method GrantDynamic(caller: string, cap: string) returns (ok: bool)
      modifies this
      ensures ok == Grantable(old(State()), caller, cap)
      ensures State() == Granted(old(State()), caller, cap)
    {
      ghost var k := State();
      if GrantedByAny(restricted, cap) { return false; }
      ok := GrantedByAny(policy.GrantedTo(caller), cap) && !GrantedByAny(policy.DeniedTo(caller), cap);
      var held := if caller in effective then effective[caller] else {};
      if ok && cap !in held {
        // the list is extended in place
        effective := effective[caller := held + {cap}];
        var was := lost;
        lost := seq(|was|, j requires 0 <= j < |was| => Extended(was[j], caller, held + {cap}));
        Hand(caller, effective[caller]);
        assert sups == Granted(k, caller, cap).sups && lost == Granted(k, caller, cap).lost;
      }
    }

    method ReplaceBinding(b: Binding)
      modifies this`bindings
      ensures bindings == ReplaceFirst(old(bindings), b)
    {
      var n := 0;
      while n < |bindings| && bindings[n].contract != b.contract
        invariant n <= |bindings| && forall j :: 0 <= j < n ==> bindings[j].contract != b.contract
      {
        n := n + 1;
      }
      ReplaceAt(bindings, b, n);
      if n < |bindings| { bindings := bindings[n := b]; }
    }

    method FindSupervisor(contract: string) returns (i: nat)
      ensures i == SupervisorOf(sups, contract)
    {
      i := 0;
      while i < |sups| && sups[i].binding.contract != contract
        invariant i <= |sups| && forall j :: 0 <= j < i ==> sups[j].binding.contract != contract
      {
        i := i + 1;
      }
      SupervisorIs(sups, contract, i);
    }

    // `rebind`. The new brick is brought up first; unless it comes up, what the kernel itself knows
    // stays as it was.
    method Rebind(contract: string, config: Config, spawn: Spawn) returns (done: bool)
      modifies this
      ensures done == (CanRebind(old(State()), contract) && spawn.Up?)
      ensures State() == Rebound(old(State()), contract, config, spawn)
    {
      if !started { return false; }
      var i := FindSupervisor(contract);
      if i == |sups| { return false; }
      var was := sups[i];
      var b := was.binding.(config := was.binding.config + config);
      var caps := ComputeEffective(b.manifest.name, b.manifest.wants);
      done := spawn.Up?;
      if done {
        var p := Spawned();
        Swap(i, Supervisor(b, caps, p, true, {p}, 0, false));
      } else {
        Stray(b, caps, spawn, false);
      }
    }

    // The old supervisor is stopped and the new one takes its place.
    method Swap(i: nat, s: Supervisor)
      requires i < |sups|
      modifies this
      ensures State() == old(State()).(
        sups := old(sups)[i := s],
        lost := Unshared(old(lost), {s.binding.manifest.name}) +
          [Lost(old(sups)[i].(live := old(sups)[i].live - {old(sups)[i].process}), true, false)],
        registry := old(registry)[s.binding.contract := s.process],
        effective := old(effective)[s.binding.manifest.name := s.caps],
        bindings := ReplaceFirst(old(bindings), s.binding),
        running := old(running) - {old(sups)[i].process})
    {
      var was := sups[i];
      running := running - {was.process};
      sups := sups[i := s];
      registry := registry[s.binding.contract := s.process];
      Keep(s.binding.manifest.name, s.caps);
      lost := lost + [Lost(was.(live := was.live - {was.process}), true, false)];
      ReplaceBinding(s.binding);
    }

    // What becomes of a supervisor that handles an exit: the restart, and the rebind hook when a brick
    // comes up.
    method Revive(s0: Supervisor, exiting: Option<nat>, spawn: Spawn) returns (s: Supervisor)
      requires Exits(s0, exiting)
      modifies this`running, this`spawned, this`registry
      ensures s == Handled(s0, exiting, spawn, old(spawned) + 1)
      ensures State() == Respawned(old(State()), s0.binding.contract, exiting, spawn)
    {
      s := s0.(up := false);
      if exiting.Some? {
        running := running - {exiting.value};
        s := s.(live := s.live - {exiting.value});
      } else {
        s := s.(due := s.due - 1);
      }
      match spawn {
        case Refused =>
        case Died => s := s.(due := s.due + 1);
        case BrokenOff =>
          var p := Spawned();
          s := s.(live := s.live + {p});
        case Up =>
          var p := Spawned();
          s := s.(process := p, up := true, live := s.live + {p});
          registry := registry[s.binding.contract := p];
      }
    }

    // A stopped supervisor does nothing.
    method Ignore(s0: Supervisor, exiting: Option<nat>) returns (s: Supervisor)
      requires Exits(s0, exiting)
      modifies this`running
      ensures s == Ignored(s0, exiting) && running == old(running) - Gone(exiting)
    {
      s := s0;
      if exiting.Some? {
        running := running - {exiting.value};
        s := s.(live := s.live - {exiting.value});
      } else {
        assert s.live - {} == s.live && running - {} == running;
      }
    }

    // The i-th supervisor handles the exit of a brick process, unless it has been stopped.
    method Restart(i: nat, exiting: Option<nat>, spawn: Spawn)
      requires i < |sups| && Exits(sups[i], exiting)
      modifies this
      ensures State() == Restarted(old(State()), i, exiting, spawn)
    {
      var s;
      if over { s := Ignore(sups[i], exiting); } else { s := Revive(sups[i], exiting, spawn); }
      sups := sups[i := s];
    }

    // The same for a supervisor outside the list.
    method LostRestart(j: nat, exiting: Option<nat>, spawn: Spawn)
      requires j < |lost| && Exits(lost[j].sup, exiting)
      modifies this
      ensures State() == LostRestarted(old(State()), j, exiting, spawn)
    {
      var l := lost[j];
      var s;
      if l.stopped { s := Ignore(l.sup, exiting); } else { s := Revive(l.sup, exiting, spawn); }
      lost := lost[j := l.(sup := s)];
    }

    // `stop`: the supervisors are stopped from the last one back.
    method Stop()
      modifies this
      ensures State() == Stopped(old(State()))
    {
      if !started { return; }
      ghost var k := State();
      var i := |sups|;
      while i > 0
        invariant 0 <= i <= |sups| == |k.sups|
        invariant State() == k.(running := running, sups := sups)
        invariant running == k.running - Processes(k.sups[i..])
        invariant forall j :: 0 <= j < |sups| ==> sups[j] == if j < i then k.sups[j] else Halted(k.sups[j])
      {
        i := i - 1;
        running := running - {sups[i].process};
        sups := sups[i := Halted(sups[i])];
        assert k.sups[i..] == [k.sups[i]] + k.sups[i + 1..];
      }
      assert k.sups[0..] == k.sups;
      registry := map[];
      started, over := false, true;
      assert sups == Stopped(k).sups;
    }

    // `_forward_contract_call` up to the call it places: the process that gets the request.
    method ForwardContractCall(caller: nat, contract: string, name: string) returns (a: Admission)
      requires caller < |sups|
      ensures a.Denied? <==> !GrantedByAny(sups[caller].caps, CallCapability(contract, name))
      ensures a.Forwarded? ==> contract in registry && a.process == registry[contract]
      ensures a.NotBound? ==> contract !in registry
    {
      MayCallExact(sups[caller].caps, contract, name);
      if !MayCall(sups[caller].caps, contract, name) { return Denied; }
      a := if contract in registry then Forwarded(registry[contract]) else NotBound;
    }
  }
}
