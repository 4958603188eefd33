// The other half of the capability theorem: bricks hold what they are entitled to.
module KernelHolds {
  import opened Capabilities
  import opened KernelModel
  import opened KernelSafety
  import KernelBindings

  // Everything this manifest wants, policy allows and nothing withheld covers.
  ghost predicate Full(k: Kernel, name: string, wants: seq<string>, caps: set<string>) {
    forall c :: c in wants && Grantable(k, name, c) ==> c in caps
  }

  ghost predicate FullFor(k: Kernel, name: string, caps: set<string>) {
    Full(k, name, WantsOf(Active(k.bindings), name), caps)
  }

  // Bindings of one brick agree on what its manifest wants.
  ghost predicate Uniform(bindings: seq<Binding>) {
    forall b :: ActiveIn(bindings, b) ==> b.manifest.wants == WantsOf(Active(bindings), b.manifest.name)
  }

  ghost predicate Holds(k: Kernel) {
    && (forall n :: n in k.effective ==> FullFor(k, n, k.effective[n]))
    && (forall i :: 0 <= i < |k.sups| && !k.sups[i].stale ==> FullFor(k, Name(k.sups[i]), k.sups[i].caps))
  }

  ghost predicate Own(k: Kernel) {
    Uniform(k.bindings) && (k.started ==> Holds(k))
  }

  ghost predicate Entitled(k: Kernel) {
    Own(k) && Safe(k) && KernelBindings.Agree(k)
  }

  // -- start --

  lemma FullNow(k: Kernel, b: Binding)
    requires Uniform(k.bindings) && ActiveIn(k.bindings, b)
    ensures FullFor(k, b.manifest.name, Effective(k, b.manifest))
  {}

  lemma SameFull(k: Kernel, k': Kernel)
    requires k'.policy == k.policy && k'.restricted == k.restricted && k'.bindings == k.bindings
    ensures forall n, caps :: FullFor(k', n, caps) <==> FullFor(k, n, caps)
  {
    assert forall n, c :: Grantable(k', n, c) <==> Grantable(k, n, c);
  }

  // Bringing up every active binding gives every name the kernel keeps a list for all it is entitled to.
  lemma {:induction false} BringUpAllHolds(k: Kernel, order: seq<Binding>)
    requires Uniform(k.bindings) && AllNamed(k, order) && forall i :: 0 <= i < |k.sups| ==> k.sups[i].stale
    requires forall i :: 0 <= i < |order| ==> ActiveIn(k.bindings, order[i])
    ensures Holds(BringUpAll(k, order))
  {
    var k' := BringUpAll(k, order);
    BringUpAllRest(k, order);
    BringUpAllSups(k, order);
    SameFull(k, k');
    forall n | n in k'.effective ensures FullFor(k', n, k'.effective[n]) {
      BringUpAllLists(k, order, n);
      var b :| b in order && b.manifest.name == n && k'.effective[n] == Effective(k, b.manifest);
      FullNow(k, b);
    }
    forall i | 0 <= i < |k'.sups| && !k'.sups[i].stale ensures FullFor(k', Name(k'.sups[i]), k'.sups[i].caps) {
      FullNow(k, order[i - |k.sups|]);
    }
  }

  // -- the other steps --

  lemma RestrictHolds(k: Kernel, withheld: set<string>)
    requires Holds(k) && Kept(k) && k.started
    ensures Holds(Restricted(k, withheld))
  {}

  lemma GrantHolds(k: Kernel, caller: string, cap: string)
    requires Holds(k) && caller in k.effective
    ensures Holds(Granted(k, caller, cap))
  {}

  lemma {:induction false} WantsSame(a: seq<Binding>, b: seq<Binding>, n: string)
    requires |a| == |b| && forall i :: 0 <= i < |a| ==> a[i].manifest == b[i].manifest
    ensures WantsOf(a, n) == WantsOf(b, n)
  {
    if a != [] { WantsSame(a[..|a| - 1], b[..|b| - 1], n); }
  }

  lemma {:induction false} ActiveSame(a: seq<Binding>, b: seq<Binding>)
    requires |a| == |b|
    requires forall i :: 0 <= i < |a| ==> a[i].manifest == b[i].manifest && a[i].disabled == b[i].disabled
    ensures |Active(a)| == |Active(b)|
    ensures forall i :: 0 <= i < |Active(a)| ==> Active(a)[i].manifest == Active(b)[i].manifest
  {
    if a != [] { ActiveSame(a[1..], b[1..]); }
  }

  // A rebind changes one binding, and not its manifest.
  lemma RebindAt(k: Kernel, contract: string, config: Config) returns (j: nat, b: Binding)
    requires KernelBindings.Agree(k) && CanRebind(k, contract)
    ensures j < |k.bindings| && Rebound(k, contract, config, Up).bindings == k.bindings[j := b]
    ensures b.manifest == k.bindings[j].manifest && b.disabled == k.bindings[j].disabled
  {
    var was := k.sups[SupervisorOf(k.sups, contract)];
    b := was.binding.(config := was.binding.config + config);
    j := KernelBindings.HeadAt(k, contract);
    KernelBindings.ReplaceFirstAt(k.bindings, j, b);
  }

  lemma SetWants(bindings: seq<Binding>, j: nat, b: Binding, n: string)
    requires j < |bindings| && b.manifest == bindings[j].manifest && b.disabled == bindings[j].disabled
    ensures WantsOf(Active(bindings[j := b]), n) == WantsOf(Active(bindings), n)
    ensures forall x :: ActiveIn(bindings[j := b], x) ==>
      exists a :: ActiveIn(bindings, a) && a.manifest == x.manifest
  {
    var bindings' := bindings[j := b];
    ActiveSame(bindings', bindings);
    WantsSame(Active(bindings'), Active(bindings), n);
    forall x | ActiveIn(bindings', x)
      ensures exists a :: ActiveIn(bindings, a) && a.manifest == x.manifest
    {
      var m :| 0 <= m < |bindings| && bindings'[m] == x;
      assert ActiveIn(bindings, bindings[m]) && bindings[m].manifest == x.manifest;
    }
  }

  lemma {:induction false} RebindWants(k: Kernel, contract: string, config: Config, n: string)
    requires KernelBindings.Agree(k) && CanRebind(k, contract)
    ensures WantsOf(Active(Rebound(k, contract, config, Up).bindings), n) == WantsOf(Active(k.bindings), n)
    ensures forall b :: ActiveIn(Rebound(k, contract, config, Up).bindings, b) ==>
      exists a :: ActiveIn(k.bindings, a) && a.manifest == b.manifest
  {
    var j, b := RebindAt(k, contract, config);
    SetWants(k.bindings, j, b, n);
  }

  // One supervisor is replaced by another of the same brick with a list that is full.
  lemma ReplacedHolds(k: Kernel, k': Kernel, i: nat, s: Supervisor)
    requires Holds(k) && i < |k.sups| && k'.policy == k.policy && k'.restricted == k.restricted
    requires forall n :: WantsOf(Active(k'.bindings), n) == WantsOf(Active(k.bindings), n)
    requires Name(s) == Name(k.sups[i]) && FullFor(k, Name(s), s.caps)
    requires k'.sups == k.sups[i := s] && k'.effective == k.effective[Name(s) := s.caps]
    ensures Holds(k')
  {
    forall n | n in k'.effective ensures FullFor(k', n, k'.effective[n]) {
      assert n != Name(s) ==> n in k.effective && FullFor(k, n, k.effective[n]);
    }
  }

  lemma RebindHolds(k: Kernel, contract: string, config: Config)
    requires Entitled(k) && CanRebind(k, contract)
    ensures Holds(Rebound(k, contract, config, Up)) && Uniform(Rebound(k, contract, config, Up).bindings)
  {
    var k' := Rebound(k, contract, config, Up);
    var i := SupervisorOf(k.sups, contract);
    forall n ensures WantsOf(Active(k'.bindings), n) == WantsOf(Active(k.bindings), n) {
      RebindWants(k, contract, config, n);
    }
    var j := KernelBindings.HeadAt(k, contract);
    FullNow(k, k.sups[i].binding);
    ReplacedHolds(k, k', i, k'.sups[i]);
    RebindWants(k, contract, config, Name(k.sups[i]));
  }

  lemma StartOwn(k: Kernel, order: seq<Binding>)
    requires Entitled(k) && CanStart(k, order)
    ensures Own(Begin(k, order))
  {
    var older, k1 := Older(k), BringUpAll(Older(k), order);
    KernelBindings.OrderActive(k, order);
    forall i | 0 <= i < |order| ensures ActiveIn(k.bindings, order[i]) { assert order[i] in order; }
    forall n | n in k.effective ensures Named(order, n) { NamedPermuted(order, Active(k.bindings), n); }
    BringUpAllHolds(older, order);
    BringUpAllRest(older, order);
    SameFull(k1, Begin(k, order));
  }

  lemma RebindOwn(k: Kernel, contract: string, config: Config, spawn: Spawn)
    requires Entitled(k) && CanRebind(k, contract)
    ensures Own(Rebound(k, contract, config, spawn))
  {
    if spawn.Up? {
      RebindHolds(k, contract, config);
    } else {
      SameFull(k, Rebound(k, contract, config, spawn));
    }
  }

  lemma StartFailsOwn(k: Kernel, order: seq<Binding>, n: nat, spawn: Spawn)
    requires Own(k) && !k.started && n < |order|
    ensures Own(BeginFailed(k, order, n, spawn))
  {
    BringUpAllRest(k, order[..n]);
  }

  lemma RestrictOwn(k: Kernel, withheld: set<string>)
    requires Own(k) && Kept(k)
    ensures Own(Restricted(k, withheld))
  {
    if k.started { RestrictHolds(k, withheld); }
  }

  lemma GrantOwn(k: Kernel, caller: string, cap: string)
    requires Own(k) && Kept(k) && CanAsk(k, caller)
    ensures Own(Granted(k, caller, cap))
  {
    AskerKept(k, caller);
    if k.started { GrantHolds(k, caller, cap); }
  }

  lemma SameListsOwn(k: Kernel, k': Kernel)
    requires Own(k) && SameLists(k, k') && (k'.started ==> k.started)
    ensures Own(k')
  {
    SameFull(k, k');
  }

  lemma KeepOwn(k: Kernel, st: Step)
    requires Entitled(k) && Legal(k, st)
    ensures Own(Apply(k, st))
  {
    match st {
      case Start(order) => StartOwn(k, order);
      case StartFails(order, n, spawn) => StartFailsOwn(k, order, n, spawn);
      case Restrict(withheld) => RestrictOwn(k, withheld);
      case Grant(caller, cap) => GrantOwn(k, caller, cap);
      case Rebind(contract, config, spawn) =>
        if CanRebind(k, contract) { RebindOwn(k, contract, config, spawn); }
      case Restart(i, exiting, spawn) =>
        RestartedLists(k, i, exiting, spawn);
        SameListsOwn(k, Apply(k, st));
      case LostRestart(j, exiting, spawn) =>
        LostRestartedLists(k, j, exiting, spawn);
        SameListsOwn(k, Apply(k, st));
      case Stop =>
        StoppedLists(k);
        SameListsOwn(k, Apply(k, st));
    }
  }

  lemma KeepEntitled(k: Kernel, st: Step)
    requires Entitled(k) && Legal(k, st)
    ensures Entitled(Apply(k, st))
  {
    KernelBindings.KeepAgree(k, st);
    KeepSafe(k, st);
    KeepOwn(k, st);
  }

  lemma {:induction false} RunEntitled(k: Kernel, steps: seq<Step>, k': Kernel)
    requires Entitled(k) && Run(k, steps, k')
    ensures Entitled(k') && forall n :: WantsOf(Active(k'.bindings), n) == WantsOf(Active(k.bindings), n)
    decreases |steps|
  {
    if steps != [] {
      KeepEntitled(k, steps[0]);
      RunEntitled(Apply(k, steps[0]), steps[1..], k');
      forall n ensures WantsOf(Active(Apply(k, steps[0]).bindings), n) == WantsOf(Active(k.bindings), n) {
        StepWants(k, steps[0], n);
      }
    }
  }

  lemma {:induction false} StepWants(k: Kernel, st: Step, n: string)
    requires Entitled(k) && Legal(k, st)
    ensures WantsOf(Active(Apply(k, st).bindings), n) == WantsOf(Active(k.bindings), n)
  {
    if st.Rebind? {
      RebindKeepsWants(k, st.contract, st.config, st.spawn, n);
    } else {
      SameBindings(k, st);
    }
  }

  lemma {:induction false} RebindKeepsWants(k: Kernel, contract: string, config: Config, spawn: Spawn, n: string)
    requires Entitled(k)
    ensures WantsOf(Active(Rebound(k, contract, config, spawn).bindings), n) == WantsOf(Active(k.bindings), n)
  {
    if CanRebind(k, contract) && spawn.Up? {
      RebindWants(k, contract, config, n);
    } else {
      assert Rebound(k, contract, config, spawn).bindings == k.bindings;
    }
  }

  // Whoever holds it may place every call it covers.
  lemma HeldMayCall(caps: set<string>, c: string)
    requires c in caps
    ensures forall contract, name :: Covers(c, CallCapability(contract, name)) ==> MayCall(caps, contract, name)
  {
    forall contract, name | Covers(c, CallCapability(contract, name)) ensures MayCall(caps, contract, name) {
      MayCallExact(caps, contract, name);
    }
  }

  lemma {:induction false} EntitledHolds(k: Kernel, i: nat, c: string)
    requires Own(k) && k.started && i < |k.sups| && !k.sups[i].stale
    requires c in WantsOf(Active(k.bindings), Name(k.sups[i])) && Grantable(k, Name(k.sups[i]), c)
    ensures c in k.sups[i].caps
  {
    assert FullFor(k, Name(k.sups[i]), k.sups[i].caps);
  }

  // Over any run, a brick of a started kernel that is not stale holds every capability its manifest asks
  // for that policy allows and nothing withheld covers; and it may place every call such a capability
  // covers.
  lemma {:induction false} HoldsEntitlement(k: Kernel, steps: seq<Step>, k': Kernel, i: nat, c: string)
    requires Initial(k) && Uniform(k.bindings) && Run(k, steps, k') && k'.started && i < |k'.sups|
    requires !k'.sups[i].stale
    requires c in WantsOf(Active(k.bindings), Name(k'.sups[i])) && Grantable(k', Name(k'.sups[i]), c)
    ensures c in k'.sups[i].caps
    ensures forall contract, name :: Covers(c, CallCapability(contract, name)) ==>
      MayCall(k'.sups[i].caps, contract, name)
  {
    InitialEntitled(k);
    RunEntitled(k, steps, k');
    EntitledHolds(k', i, c);
    HeldMayCall(k'.sups[i].caps, c);
  }

  lemma {:induction false} InitialEntitled(k: Kernel)
    requires Initial(k) && Uniform(k.bindings)
    ensures Entitled(k)
  {
    InitialSafe(k);
    KernelBindings.InitialAgree(k);
  }

  lemma {:induction false} InitialSafe(k: Kernel)
    requires Initial(k)
    ensures Safe(k)
  {}

  // Exactly when a start leaves every listed brick with all it is entitled to: when the bricks that
  // earlier starts left in the list have it.
  lemma {:induction false} StartHolds(k: Kernel, order: seq<Binding>)
    requires Entitled(k) && CanStart(k, order)
    ensures var k' := Begin(k, order);
            (forall i :: 0 <= i < |k'.sups| ==> FullFor(k', Name(k'.sups[i]), k'.sups[i].caps)) <==>
            (forall i :: 0 <= i < |k.sups| ==> FullFor(k, Name(k.sups[i]), k.sups[i].caps))
  {
    var k', older := Begin(k, order), Older(k);
    StartOwn(k, order);
    BringUpAllRest(older, order);
    BringUpAllSups(older, order);
    SameFull(k, k');
    assert forall i :: 0 <= i < |k.sups| ==> k'.sups[i] == k.sups[i].(stale := true);
    assert forall i :: |k.sups| <= i < |k'.sups| ==> !k'.sups[i].stale;
  }
}
