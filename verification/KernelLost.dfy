// The supervisors a kernel has lost, and what their bricks may call.
module KernelLost {
  import opened Prelude
  import opened Capabilities
  import opened KernelModel
  import opened KernelSafety

  // -- one step --

  // A grant that reaches a list shared with the kernel.
  ghost predicate Reaches(k: Kernel, st: Step, l: Lost) {
    st.Grant? && l.shares && st.caller == Name(l.sup) && Grantable(k, st.caller, st.cap)
  }

  // What a step makes of a supervisor that was lost before.
  ghost predicate LostStep(k: Kernel, st: Step, l: Lost, l': Lost) {
    && Name(l'.sup) == Name(l.sup) && (l'.shares ==> l.shares)
    && (l'.sup.caps == l.sup.caps || (Reaches(k, st, l) && l'.sup.caps == l.sup.caps + {st.cap}))
  }

  lemma StrayedLost(k: Kernel, b: Binding, caps: set<string>, spawn: Spawn, shares: bool)
    ensures var l := Strayed(k, b, caps, spawn, shares).lost;
            && |k.lost| <= |l| <= |k.lost| + 1 && (forall j :: 0 <= j < |k.lost| ==> l[j] == k.lost[j])
            && (|l| > |k.lost| ==>
                  l[|k.lost|].sup.caps == caps && Name(l[|k.lost|].sup) == b.manifest.name && !l[|k.lost|].sup.stale)
  {}

  lemma BeginFailedLost(k: Kernel, order: seq<Binding>, n: nat, spawn: Spawn)
    requires n < |order|
    ensures var k', b := BeginFailed(k, order, n, spawn), order[n];
            && |k.lost| <= |k'.lost| <= |k.lost| + 1
            && (forall j :: 0 <= j < |k.lost| ==>
                  k'.lost[j] == k.lost[j].(shares := k'.lost[j].shares) &&
                  (k'.lost[j].shares ==>
                     var name := Name(k.lost[j].sup);
                     k.lost[j].shares && !Named(order[..n], name) && name != b.manifest.name))
            && (|k'.lost| > |k.lost| ==>
                  var s := k'.lost[|k.lost|].sup;
                  s.caps == Effective(k, b.manifest) && Name(s) == b.manifest.name && !s.stale)
  {
    var k1, b := BringUpAll(k, order[..n]), order[n];
    BringUpAllRest(k, order[..n]);
    BringUpAllLost(k, order[..n]);
    assert Effective(k1, b.manifest) == Effective(k, b.manifest);
    StrayedLost(Listed(k1, b), b, Effective(k1, b.manifest), spawn, true);
  }

  lemma RebindLost(k: Kernel, contract: string, config: Config, spawn: Spawn)
    requires Safe(k)
    ensures var l := Rebound(k, contract, config, spawn).lost;
            && |k.lost| <= |l| <= |k.lost| + 1
            && (forall j :: 0 <= j < |k.lost| ==> l[j] == k.lost[j])
            && (|l| > |k.lost| ==>
                  var s := l[|k.lost|].sup; !s.stale ==> CapsOk(k, Name(s), s.caps))
  {
    if CanRebind(k, contract) && !spawn.Up? {
      var was := k.sups[SupervisorOf(k.sups, contract)];
      var b := was.binding.(config := was.binding.config + config);
      StrayedLost(k, b, Effective(k, b.manifest), spawn, false);
      EffectiveOk(k, b.manifest);
    }
  }

  lemma GrantLost(k: Kernel, caller: string, cap: string, j: nat)
    requires Kept(k) && j < |k.lost|
    ensures |Granted(k, caller, cap).lost| == |k.lost|
    ensures LostStep(k, Grant(caller, cap), k.lost[j], Granted(k, caller, cap).lost[j])
  {}

  lemma StepLost(k: Kernel, st: Step, j: nat)
    requires Safe(k) && Legal(k, st) && j < |k.lost|
    ensures |k.lost| <= |Apply(k, st).lost| <= |k.lost| + 1
    ensures LostStep(k, st, k.lost[j], Apply(k, st).lost[j])
  {
    match st {
      case Start(order) =>
        BringUpAllLost(Older(k), order);
      case StartFails(order, n, spawn) => BeginFailedLost(k, order, n, spawn);
      case Restrict(withheld) =>
      case Grant(caller, cap) => GrantLost(k, caller, cap, j);
      case Rebind(contract, config, spawn) => RebindLost(k, contract, config, spawn);
      case Restart(i, exiting, spawn) => RestartedLists(k, i, exiting, spawn);
      case LostRestart(i, exiting, spawn) => LostRestartedLists(k, i, exiting, spawn);
      case Stop =>
    }
  }

  // A step loses a supervisor, unless it is a stale one, only with what was grantable then.
  lemma StepLoses(k: Kernel, st: Step, j: nat)
    requires Safe(k) && Legal(k, st) && |k.lost| <= j < |Apply(k, st).lost|
    ensures j == |k.lost|
    ensures var s := Apply(k, st).lost[j].sup; !s.stale ==> CapsOk(k, Name(s), s.caps)
  {
    match st {
      case Start(order) => BringUpAllLost(Older(k), order);
      case StartFails(order, n, spawn) =>
        BeginFailedLost(k, order, n, spawn);
        EffectiveOk(k, order[n].manifest);
      case Rebind(contract, config, spawn) => RebindLost(k, contract, config, spawn);
      case LostRestart(i, exiting, spawn) => LostRestartedLists(k, i, exiting, spawn);
      case _ =>
    }
  }

  // -- whole runs --

  // The list of a lost supervisor only grows, by what policy allows, and not at all unless it is shared.
  lemma {:induction false} LostUnreached(k: Kernel, steps: seq<Step>, k': Kernel, j: nat)
    requires Safe(k) && Run(k, steps, k') && j < |k.lost|
    ensures j < |k'.lost| && Name(k'.lost[j].sup) == Name(k.lost[j].sup)
    ensures k.lost[j].sup.caps <= k'.lost[j].sup.caps
    ensures !k.lost[j].shares ==> !k'.lost[j].shares && k'.lost[j].sup.caps == k.lost[j].sup.caps
    decreases |steps|
  {
    if steps != [] {
      KeepSafe(k, steps[0]);
      StepLost(k, steps[0], j);
      LostUnreached(Apply(k, steps[0]), steps[1..], k', j);
    }
  }

  lemma {:induction false} RunFirst(k: Kernel, steps: seq<Step>, n: nat, m: Kernel)
    requires steps != [] && 0 < n <= |steps| && Legal(k, steps[0])
    requires Run(Apply(k, steps[0]), steps[1..][..n - 1], m)
    ensures Run(k, steps[..n], m)
  {
    assert steps[..n][1..] == steps[1..][..n - 1];
  }

  // What it has got since it was lost was granted to its name while it was shared.
  lemma {:induction false} LostGranted(k: Kernel, steps: seq<Step>, k': Kernel, j: nat, c: string)
    returns (n: nat, m: Kernel)
    requires Safe(k) && Run(k, steps, k') && j < |k.lost|
    requires j < |k'.lost| && c in k'.lost[j].sup.caps && c !in k.lost[j].sup.caps
    ensures n < |steps| && Run(k, steps[..n], m)
    ensures steps[n] == Grant(Name(k.lost[j].sup), c) && Grantable(m, Name(k.lost[j].sup), c)
    ensures j < |m.lost| && m.lost[j].shares
    decreases |steps|
  {
    var k1 := Apply(k, steps[0]);
    KeepSafe(k, steps[0]);
    StepLost(k, steps[0], j);
    if c in k1.lost[j].sup.caps {
      n, m := 0, k;
      assert steps[..0] == [];
    } else {
      n, m := LostGranted(k1, steps[1..], k', j, c);
      n := n + 1;
      RunFirst(k, steps, n, m);
    }
  }

  // The step of a run that lost a supervisor.
  ghost predicate LostAt(k: Kernel, steps: seq<Step>, n: nat, m: Kernel, j: nat) {
    && n < |steps| && Run(k, steps[..n], m) && Legal(m, steps[n])
    && |m.lost| <= j < |Apply(m, steps[n]).lost|
  }

  // What a supervisor passed on when it was lost, unless it was stale, was grantable in the state in
  // which that happened: covered by a grant, by no deny, and by nothing withheld then. It is all it
  // ever passes on, unless its list is shared with the kernel.
  lemma {:induction false} LostWithinPolicy(k: Kernel, steps: seq<Step>, k': Kernel, j: nat) returns (n: nat, m: Kernel)
    requires Safe(k) && Run(k, steps, k') && |k.lost| <= j < |k'.lost|
    ensures LostAt(k, steps, n, m, j)
    ensures var l := Apply(m, steps[n]).lost[j];
            && Name(l.sup) == Name(k'.lost[j].sup)
            && (!l.sup.stale ==> CapsOk(m, Name(l.sup), l.sup.caps))
            && (if l.shares then l.sup.caps <= k'.lost[j].sup.caps else l.sup.caps == k'.lost[j].sup.caps)
    decreases |steps|
  {
    n, m := 0, k;
    if steps != [] {
      var k1 := Apply(k, steps[0]);
      KeepSafe(k, steps[0]);
      if j < |k1.lost| {
        LostUnreached(k1, steps[1..], k', j);
        StepLoses(k, steps[0], j);
        assert steps[..0] == [];
      } else {
        n, m := LostWithinPolicy(k1, steps[1..], k', j);
        n := n + 1;
        RunFirst(k, steps, n, m);
      }
    }
  }

  // -- withholding --

  // In everything that can follow, `w` is shut to the lost brick.
  ghost predicate ShutForGood(k: Kernel, j: nat, w: string) {
    forall steps, k' :: Run(k, steps, k') && j < |k'.lost| ==> Withheld(k'.lost[j].sup.caps, w)
  }

  // It serves a process, or may come to by an exit that it still has to handle.
  predicate Lively(s: Supervisor, stopped: bool) {
    s.live != {} || (!stopped && s.due > 0)
  }

  // A brick of that name is alive or can still be brought up.
  predicate CanCome(k: Kernel, name: string) {
    || (exists i :: 0 <= i < |k.sups| && Name(k.sups[i]) == name && Lively(k.sups[i], k.over))
    || (exists j :: 0 <= j < |k.lost| && Name(k.lost[j].sup) == name && Lively(k.lost[j].sup, k.lost[j].stopped))
  }

  // Every grant that shares a call with `w` is denied as a whole.
  predicate Denied(policy: Policy, brick: string, w: string) {
    forall g :: g in policy.GrantedTo(brick) && ShareCallSegments(g, w) ==> GrantedByAny(policy.DeniedTo(brick), g)
  }

  lemma DeniedShuts(policy: Policy, brick: string, c: string, w: string)
    requires Denied(policy, brick, w) && policy.Allows(brick, c)
    ensures !ShareCallSegments(c, w)
  {
    if ShareCallSegments(c, w) {
      ShareCallDecided(c, w);
      var contract, name :| Covers(c, CallCapability(contract, name)) && Covers(w, CallCapability(contract, name));
      var g :| g in policy.GrantedTo(brick) && Covers(g, c);
      CoversOrder(g, c, CallCapability(contract, name));
      assert ShareCall(g, w);
      ShareCallDecided(g, w);
      var d :| d in policy.DeniedTo(brick) && Covers(d, g);
      CoversOrder(d, g, c);
    }
  }

  // Nobody of that name, and the list still shared.
  ghost predicate Silent(k: Kernel, j: nat, name: string) {
    j < |k.lost| && Name(k.lost[j].sup) == name && (k.lost[j].shares ==> !CanCome(k, name))
  }

  lemma {:induction false} BringUpAllSilent(k: Kernel, order: seq<Binding>, j: nat, name: string)
    requires Silent(k, j, name) && !k.over
    ensures Silent(BringUpAll(k, order), j, name)
  {
    var k' := BringUpAll(k, order);
    BringUpAllRest(k, order);
    BringUpAllSups(k, order);
    BringUpAllLost(k, order);
    if k'.lost[j].shares {
      assert !Named(order, name);
      assert forall i :: |k.sups| <= i < |k'.sups| ==> Name(k'.sups[i]) == order[i - |k.sups|].manifest.name;
      forall i | 0 <= i < |k'.lost| && Name(k'.lost[i].sup) == name
        ensures !Lively(k'.lost[i].sup, k'.lost[i].stopped)
      {
        assert Name(k.lost[i].sup) == name;
      }
    }
  }

  lemma BeginFailedSilent(k: Kernel, order: seq<Binding>, n: nat, spawn: Spawn, j: nat, name: string)
    requires Silent(k, j, name) && !k.over && n < |order|
    ensures Silent(BeginFailed(k, order, n, spawn), j, name)
  {
    BringUpAllSilent(k, order[..n], j, name);
    BringUpAllRest(k, order[..n]);
    var k1, b := BringUpAll(k, order[..n]), order[n];
    ListedSilent(k1, b, j, name);
    StrayedSilent(Listed(k1, b), b, Effective(k1, b.manifest), spawn, j, name);
  }

  lemma ListedSilent(k: Kernel, b: Binding, j: nat, name: string)
    requires Silent(k, j, name)
    ensures Silent(Listed(k, b), j, name) && (Listed(k, b).lost[j].shares ==> b.manifest.name != name)
  {
    var k' := Listed(k, b);
    assert forall i :: 0 <= i < |k.lost| ==> k'.lost[i] == k.lost[i].(shares := k'.lost[i].shares);
  }

  lemma StrayedSilent(k: Kernel, b: Binding, caps: set<string>, spawn: Spawn, j: nat, name: string)
    requires Silent(k, j, name) && (k.lost[j].shares ==> b.manifest.name != name)
    ensures Silent(Strayed(k, b, caps, spawn, true), j, name)
  {}

  lemma SilentStep(k: Kernel, st: Step, j: nat, name: string)
    requires Safe(k) && Legal(k, st) && Silent(k, j, name)
    ensures Silent(Apply(k, st), j, name)
    ensures Apply(k, st).lost[j].sup.caps == k.lost[j].sup.caps
  {
    StepLost(k, st, j);
    if k.lost[j].shares {
      match st {
        case Start(order) =>
          BringUpAllSilent(Older(k), order, j, name);
        case StartFails(order, n, spawn) => BeginFailedSilent(k, order, n, spawn, j, name);
        case Restrict(withheld) =>
          RestrictedProcesses(k, withheld);
          if CanCome(Restricted(k, withheld), name) { SameCome(k, Restricted(k, withheld), name); }
        case Grant(caller, cap) => GrantSilent(k, caller, cap, j, name);
        case Rebind(contract, config, spawn) =>
        case Restart(i, exiting, spawn) => RestartSilent(k, i, exiting, spawn, j, name);
        case LostRestart(i, exiting, spawn) => LostRestartSilent(k, i, exiting, spawn, j, name);
        case Stop =>
      }
    }
  }

  lemma GrantSilent(k: Kernel, caller: string, cap: string, j: nat, name: string)
    requires Silent(k, j, name) && k.lost[j].shares && CanAsk(k, caller)
    ensures caller != name && Silent(Granted(k, caller, cap), j, name)
  {
    if CanAsk(k, name) { AskerCan(k, name); }
    GrantedProcesses(k, caller, cap);
    if CanCome(Granted(k, caller, cap), name) { SameCome(k, Granted(k, caller, cap), name); }
  }

  lemma AskerCan(k: Kernel, name: string)
    requires CanAsk(k, name)
    ensures CanCome(k, name)
  {}

  predicate SameProcess(s: Supervisor, s': Supervisor) {
    Name(s') == Name(s) && s'.live == s.live && s'.due == s.due
  }

  // Whatever becomes of the lists, nobody's processes are touched.
  ghost predicate SameProcesses(k: Kernel, k': Kernel) {
    && k'.over == k.over
    && |k'.sups| == |k.sups| && (forall i :: 0 <= i < |k.sups| ==> SameProcess(k.sups[i], k'.sups[i]))
    && |k'.lost| == |k.lost|
    && (forall j :: 0 <= j < |k.lost| ==>
          SameProcess(k.lost[j].sup, k'.lost[j].sup) && k'.lost[j].stopped == k.lost[j].stopped &&
          (k'.lost[j].shares ==> k.lost[j].shares))
  }

  lemma GrantedProcesses(k: Kernel, caller: string, cap: string)
    ensures SameProcesses(k, Granted(k, caller, cap))
  {}

  lemma RestrictedProcesses(k: Kernel, withheld: set<string>)
    ensures SameProcesses(k, Restricted(k, withheld))
  {}

  lemma SameCome(k: Kernel, k': Kernel, name: string)
    requires SameProcesses(k, k') && CanCome(k', name)
    ensures CanCome(k, name)
  {
    if i :| 0 <= i < |k'.sups| && Name(k'.sups[i]) == name && Lively(k'.sups[i], k'.over) {
      assert SameProcess(k.sups[i], k'.sups[i]);
    } else {
      var j :| 0 <= j < |k'.lost| && Name(k'.lost[j].sup) == name && Lively(k'.lost[j].sup, k'.lost[j].stopped);
      assert SameProcess(k.lost[j].sup, k'.lost[j].sup);
    }
  }

  lemma RestartSilent(k: Kernel, i: nat, exiting: Option<nat>, spawn: Spawn, j: nat, name: string)
    requires Silent(k, j, name) && k.lost[j].shares && !k.over && i < |k.sups| && Exits(k.sups[i], exiting)
    ensures Silent(Restarted(k, i, exiting, spawn), j, name)
  {}

  lemma LostRestartSilent(k: Kernel, i: nat, exiting: Option<nat>, spawn: Spawn, j: nat, name: string)
    requires Silent(k, j, name) && k.lost[j].shares && i < |k.lost| && Exits(k.lost[i].sup, exiting)
    ensures Silent(LostRestarted(k, i, exiting, spawn), j, name)
  {}

  lemma {:induction false} SilentRun(k: Kernel, steps: seq<Step>, k': Kernel, j: nat, name: string)
    requires Safe(k) && Run(k, steps, k') && Silent(k, j, name)
    ensures Silent(k', j, name) && k'.lost[j].sup.caps == k.lost[j].sup.caps
    decreases |steps|
  {
    if steps != [] {
      KeepSafe(k, steps[0]);
      SilentStep(k, steps[0], j, name);
      SilentRun(Apply(k, steps[0]), steps[1..], k', j, name);
    }
  }

  lemma LostStaysShut(k: Kernel, j: nat, w: string)
    requires Safe(k) && j < |k.lost| && forall c :: c in k.lost[j].sup.caps ==> !ShareCallSegments(c, w)
    requires var name := Name(k.lost[j].sup); k.lost[j].shares && CanCome(k, name) ==> Denied(k.policy, name, w)
    ensures ShutForGood(k, j, w)
  {
    var name := Name(k.lost[j].sup);
    forall steps, k' | Run(k, steps, k') && j < |k'.lost| ensures Withheld(k'.lost[j].sup.caps, w) {
      RunSafe(k, steps, k');
      forall c | c in k'.lost[j].sup.caps ensures !ShareCallSegments(c, w) {
        if c !in k.lost[j].sup.caps {
          if Silent(k, j, name) {
            SilentRun(k, steps, k', j, name);
          } else {
            LostUnreached(k, steps, k', j);
            assert Allowed(k'.policy, k'.lost[j].sup);
            DeniedShuts(k.policy, name, c, w);
          }
        }
      }
      WithheldDecided(k'.lost[j].sup.caps, w);
    }
  }

  // Somebody of the name can be made to ask, and no list changes on the way.
  lemma AskerComes(k: Kernel, name: string) returns (steps: seq<Step>, k': Kernel)
    requires CanCome(k, name) && !k.over
    ensures Run(k, steps, k') && CanAsk(k', name) && SameLists(k, k')
    ensures k'.started == k.started && k'.over == k.over
  {
    steps, k' := [], k;
    if !CanAsk(k, name) {
      if i :| 0 <= i < |k.sups| && Name(k.sups[i]) == name && Lively(k.sups[i], k.over) {
        assert !Asks(k.sups[i], name);
        steps := [Restart(i, None, BrokenOff)];
        k' := Apply(k, steps[0]);
        RestartedLists(k, i, None, BrokenOff);
        assert Asks(k'.sups[i], name);
      } else {
        var j :| 0 <= j < |k.lost| && Name(k.lost[j].sup) == name && Lively(k.lost[j].sup, k.lost[j].stopped);
        assert !Asks(k.lost[j].sup, name);
        steps := [LostRestart(j, None, BrokenOff)];
        k' := Apply(k, steps[0]);
        LostRestartedLists(k, j, None, BrokenOff);
        assert Asks(k'.lost[j].sup, name);
      }
      assert steps[1..] == [];
    }
  }

  lemma {:induction false} RunFrom(k: Kernel, st: Step, rest: seq<Step>, k': Kernel)
    requires Legal(k, st) && Run(Apply(k, st), rest, k')
    ensures Run(k, [st] + rest, k')
  {
    assert ([st] + rest)[1..] == rest;
  }

  lemma {:induction false} RunOn(k: Kernel, steps: seq<Step>, m: Kernel, more: seq<Step>, k': Kernel)
    requires Run(k, steps, m) && Run(m, more, k')
    ensures Run(k, steps + more, k')
    decreases |steps|
  {
    if steps == [] {
      assert steps + more == more;
    } else {
      var k1, rest := Apply(k, steps[0]), steps[1..];
      RunOn(k1, rest, m, more, k');
      RunFrom(k, steps[0], rest + more, k');
      assert steps + more == [steps[0]] + (rest + more);
    }
  }

  // A shared list can be made to hold any grant that is not denied.
  lemma SharedGrows(k: Kernel, j: nat, g: string) returns (steps: seq<Step>, k': Kernel)
    requires Safe(k) && j < |k.lost| && k.lost[j].shares && CanCome(k, Name(k.lost[j].sup))
    requires g in k.policy.GrantedTo(Name(k.lost[j].sup))
    requires !GrantedByAny(k.policy.DeniedTo(Name(k.lost[j].sup)), g)
    ensures Run(k, steps, k') && j < |k'.lost| && g in k'.lost[j].sup.caps
  {
    var name := Name(k.lost[j].sup);
    var first, m := AskerComes(k, name);
    RunSafe(k, first, m);
    var more := [Restrict({}), Grant(name, g)];
    var m1 := Apply(m, more[0]);
    assert m1 == m.(restricted := {});
    assert CanAsk(m1, name);
    k' := Apply(m1, more[1]);
    RunTwo(m, more[0], more[1]);
    CoversOrder(g, g, g);
    assert Grantable(m1, name, g);
    GivesShared(m1, j, name, g);
    RunOn(k, first, m, more, k');
    steps := first + more;
  }

  lemma GivesShared(k: Kernel, j: nat, name: string, g: string)
    requires Kept(k) && j < |k.lost| && k.lost[j].shares && Name(k.lost[j].sup) == name && Grantable(k, name, g)
    ensures |Granted(k, name, g).lost| == |k.lost| && g in Granted(k, name, g).lost[j].sup.caps
  {}

  // Exactly when `w` stays shut to a lost brick whatever is withheld or granted later: when nothing it
  // was lost with shares a call with `w`, and, if the kernel shares its list and a brick of its name can
  // still ask for more, every grant of its policy that shares one is denied.
  lemma LostWithholding(k: Kernel, j: nat, w: string)
    requires Safe(k) && j < |k.lost|
    ensures var l, name := k.lost[j], Name(k.lost[j].sup);
            ShutForGood(k, j, w) <==>
            && (forall c :: c in l.sup.caps ==> !ShareCallSegments(c, w))
            && (l.shares && CanCome(k, name) ==> Denied(k.policy, name, w))
  {
    var l, name := k.lost[j], Name(k.lost[j].sup);
    if c :| c in l.sup.caps && ShareCallSegments(c, w) {
      WithheldDecided(l.sup.caps, w);
      var none: seq<Step> := [];
      assert Run(k, none, k);
    } else if l.shares && CanCome(k, name) && !Denied(k.policy, name, w) {
      var g :| g in k.policy.GrantedTo(name) && ShareCallSegments(g, w) && !GrantedByAny(k.policy.DeniedTo(name), g);
      var steps, k' := SharedGrows(k, j, g);
      WithheldDecided(k'.lost[j].sup.caps, w);
    } else {
      LostStaysShut(k, j, w);
    }
  }

  // -- examples --

  // A start that fails at a brick that asks for nothing and is left running.
  lemma FailedAlone() returns (k: Kernel, k': Kernel)
    ensures Initial(k) && k.policy == Policy({ALL}, {}, map[], map[]) && Active(k.bindings) == k.bindings
    ensures |k.bindings| == 1 && k' == BeginFailed(k, k.bindings, 0, BrokenOff)
    ensures |k'.lost| == 1 && k'.lost[0].shares && k'.lost[0].sup.caps == {} && Asks(k'.lost[0].sup, "brick")
    ensures !k'.started && k'.policy == k.policy && k'.restricted == {} && Safe(k')
  {
    var b := Binding("orchestrator", Manifest("brick", []), map[], false);
    k := Kernel(Policy({ALL}, {}, map[], map[]), [b], [], [], map[], {}, false, false, map[], {}, 0);
    assert Active([b]) == [b] by { assert Active([]) == []; }
    assert [b][..0] == [];
    k' := BeginFailed(k, [b], 0, BrokenOff);
    BeginFailedSafe(k, [b], 0, BrokenOff);
    assert Effective(k, b.manifest) == {};
  }

  // A run: that brick then asks for what policy grants it, and gets it, although the kernel never lists
  // its supervisor.
  lemma SharedExample() returns (k: Kernel, k1: Kernel, steps: seq<Step>, k': Kernel)
    ensures Initial(k) && |steps| == 2 && steps[0].StartFails? && Legal(k, steps[0])
    ensures k1 == Apply(k, steps[0]) && Run(k, steps, k')
    ensures !k'.started && |k1.lost| == 1 && |k'.lost| == 1
    ensures Withheld(k1.lost[0].sup.caps, MEMORY) && !Withheld(k'.lost[0].sup.caps, MEMORY)
  {
    k, k1 := FailedAlone();
    steps := [StartFails(k.bindings, 0, BrokenOff), Grant("brick", ALL)];
    k' := Granted(k1, "brick", ALL);
    assert k1 == Apply(k, steps[0]) && k' == Apply(k1, steps[1]);
    RunTwo(k, steps[0], steps[1]);
    MemorySearch();
    NothingHeld(MEMORY);
    assert Grantable(k1, "brick", ALL);
    GivesShared(k1, 0, "brick", ALL);
    HeldLets(k'.lost[0].sup.caps, ALL, MEMORY, "memory", "search");
  }

  lemma NothingHeld(w: string)
    ensures Withheld({}, w)
  {
    WithheldDecided({}, w);
  }

  // A kernel of one brick that asks for what it is granted, started.
  lemma StartedAlone(w: string) returns (k: Kernel, k1: Kernel)
    ensures Initial(k) && k.policy == Policy({w}, {}, map[], map[]) && CanStart(k, k.bindings)
    ensures k1 == Begin(k, k.bindings) && k1.started && k1.lost == [] && k1.policy == k.policy && k1.restricted == {}
    ensures |k1.sups| == 1 && k1.sups[0].binding.contract == "orchestrator"
    ensures k1.sups[0].binding.manifest == Manifest("brick", [w]) && "brick" in k1.effective
  {
    var b := Binding("orchestrator", Manifest("brick", [w]), map[], false);
    k := Kernel(Policy({w}, {}, map[], map[]), [b], [], [], map[], {}, false, false, map[], {}, 0);
    assert Active([b]) == [b] by { assert Active([]) == []; }
    assert Older(k) == k;
    assert BringUpAll(k, [b]) == BringUp(k, b) by { assert [b][..0] == []; }
    k1 := Begin(k, [b]);
  }

  // A run: the brick comes up, a rebind is broken off and leaves its process, and then what the brick
  // was granted is withheld. That shuts it to the listed brick, but not to the process left behind.
  lemma LostExample(w: string, contract: string, name: string) returns (k: Kernel, steps: seq<Step>, k': Kernel)
    requires Covers(w, CallCapability(contract, name))
    ensures Initial(k) && k.policy.grant == {w} && Run(k, steps, k') && k'.started && w in k'.restricted
    ensures |k'.sups| == 1 && Withheld(k'.sups[0].caps, w)
    ensures |k'.lost| == 1 && k'.lost[0].sup.live != {} && k'.lost[0].sup.live <= k'.running
    ensures MayCall(k'.lost[0].sup.caps, contract, name) && !Withheld(k'.lost[0].sup.caps, w)
  {
    var k1;
    k, k1 := StartedAlone(w);
    CoversOrder(w, w, w);
    var k2 := LostAfter(k1, w);
    k' := Restricted(k2, {w});
    steps := [Start(k.bindings), Rebind("orchestrator", map[], BrokenOff), Restrict({w})];
    RunThree(k, steps[0], steps[1], steps[2]);
    WithheldNow(k2, w);
    NothingHeld(w);
    MayCallExact(k'.lost[0].sup.caps, contract, name);
    HeldLets(k'.lost[0].sup.caps, w, w, contract, name);
  }

  lemma LostAfter(k: Kernel, w: string) returns (k': Kernel)
    requires k.started && |k.sups| == 1 && k.lost == [] && k.sups[0].binding.contract == "orchestrator"
    requires k.sups[0].binding.manifest == Manifest("brick", [w]) && Grantable(k, "brick", w)
    ensures k' == Apply(k, Rebind("orchestrator", map[], BrokenOff))
    ensures k'.started && k'.policy == k.policy && k'.sups == k.sups && |k'.lost| == 1 && w in k'.lost[0].sup.caps
    ensures k'.lost[0].sup.live != {} && k'.lost[0].sup.live <= k'.running
  {
    k' := Apply(k, Rebind("orchestrator", map[], BrokenOff));
    assert w in Effective(k, Manifest("brick", [w]));
  }

  // Under a policy of this one grant, withholding it empties the listed brick's list.
  lemma WithheldNow(k: Kernel, w: string)
    requires k.started && |k.sups| == 1 && Name(k.sups[0]) in k.effective
    requires forall c :: k.policy.Allows(Name(k.sups[0]), c) ==> Covers(w, c)
    ensures |Restricted(k, {w}).sups| == 1 && Restricted(k, {w}).sups[0].caps == {}
  {}

  lemma WithholdingMissesLost() returns (k: Kernel, steps: seq<Step>, k': Kernel)
    ensures Initial(k) && k.policy.grant == {MEMORY} && Run(k, steps, k') && k'.started && MEMORY in k'.restricted
    ensures |k'.sups| == 1 && Withheld(k'.sups[0].caps, MEMORY)
    ensures |k'.lost| == 1 && k'.lost[0].sup.live != {} && k'.lost[0].sup.live <= k'.running
    ensures !Withheld(k'.lost[0].sup.caps, MEMORY)
  {
    MemorySearch();
    k, steps, k' := LostExample(MEMORY, "memory", "search");
  }
}
