// Capabilities over whole kernel runs.
module KernelSafety {
  import opened Prelude
  import opened Capabilities
  import opened KernelModel

  ghost predicate CapsOk(k: Kernel, name: string, caps: set<string>) {
    forall c :: c in caps ==> Grantable(k, name, c)
  }

  // Every capability held is one policy grants, and neither denied nor withheld, but for the bricks
  // that were up before the start that succeeded.
  ghost predicate CapInv(k: Kernel) {
    && (forall n :: n in k.effective ==> CapsOk(k, n, k.effective[n]))
    && (forall i :: 0 <= i < |k.sups| && !k.sups[i].stale ==> CapsOk(k, Name(k.sups[i]), k.sups[i].caps))
  }

  ghost predicate Allowed(policy: Policy, s: Supervisor) {
    forall c :: c in s.caps ==> policy.Allows(Name(s), c)
  }

  // Started or not, listed or lost, a supervisor passes on only what policy lets its brick hold.
  ghost predicate AllAllowed(k: Kernel) {
    && (forall n, c :: n in k.effective && c in k.effective[n] ==> k.policy.Allows(n, c))
    && (forall i :: 0 <= i < |k.sups| ==> Allowed(k.policy, k.sups[i]))
    && (forall j :: 0 <= j < |k.lost| ==> Allowed(k.policy, k.lost[j].sup))
  }

  // The kernel keeps a list for every supervisor's name, and only a kernel whose start failed shares
  // one with a supervisor it has lost.
  ghost predicate Kept(k: Kernel) {
    && (forall i :: 0 <= i < |k.sups| ==> Name(k.sups[i]) in k.effective)
    && (forall j :: 0 <= j < |k.lost| ==> Name(k.lost[j].sup) in k.effective)
    && (forall j :: 0 <= j < |k.lost| && k.lost[j].shares ==> k.lost[j].sup.caps == k.effective[Name(k.lost[j].sup)])
  }

  ghost predicate AllNamed(k: Kernel, order: seq<Binding>) {
    forall n :: n in k.effective ==> Named(order, n)
  }

  ghost predicate NoneShares(k: Kernel) {
    forall j :: 0 <= j < |k.lost| ==> !k.lost[j].shares
  }

  // A restriction reaches the lists only while the kernel is started.
  ghost predicate Safe(k: Kernel) {
    && AllAllowed(k) && Kept(k)
    && (k.started ==> CapInv(k) && !k.over)
    && (k.started || k.over ==> NoneShares(k))
    && (!k.started && !k.over ==> AllNamed(k, Active(k.bindings)))
  }

  // -- start --

  lemma NamedMember(order: seq<Binding>, name: string)
    ensures Named(order, name) <==> exists b :: b in order && b.manifest.name == name
  {
    if b :| b in order && b.manifest.name == name { var i :| 0 <= i < |order| && order[i] == b; }
  }

  lemma NamedPermuted(order: seq<Binding>, active: seq<Binding>, name: string)
    requires multiset(order) == multiset(active)
    ensures Named(order, name) <==> Named(active, name)
  {
    NamedMember(order, name);
    NamedMember(active, name);
    assert forall b :: b in order <==> b in multiset(order);
    assert forall b :: b in active <==> b in multiset(active);
  }

  lemma BringUpKept(k: Kernel, b: Binding)
    requires AllAllowed(k) && Kept(k)
    ensures AllAllowed(BringUp(k, b)) && Kept(BringUp(k, b))
  {}

  lemma {:induction false} BringUpAllKept(k: Kernel, order: seq<Binding>)
    requires AllAllowed(k) && Kept(k)
    ensures AllAllowed(BringUpAll(k, order)) && Kept(BringUpAll(k, order))
  {
    if order != [] {
      BringUpAllKept(k, order[..|order| - 1]);
      BringUpKept(BringUpAll(k, order[..|order| - 1]), order[|order| - 1]);
    }
  }

  lemma EffectiveOk(k: Kernel, m: Manifest)
    ensures CapsOk(k, m.name, Effective(k, m))
  {}

  // Bringing up every name the kernel keeps a list for renews them all.
  lemma {:induction false} BringUpAllRenews(k: Kernel, order: seq<Binding>)
    requires AllNamed(k, order)
    ensures var k' := BringUpAll(k, order); forall n :: n in k'.effective ==> CapsOk(k', n, k'.effective[n])
  {
    var k' := BringUpAll(k, order);
    BringUpAllRest(k, order);
    forall n | n in k'.effective ensures CapsOk(k', n, k'.effective[n]) {
      BringUpAllLists(k, order, n);
      var b :| b in order && b.manifest.name == n && k'.effective[n] == Effective(k, b.manifest);
      EffectiveOk(k, b.manifest);
    }
  }

  lemma {:induction false} BringUpAllFresh(k: Kernel, order: seq<Binding>)
    requires forall i :: 0 <= i < |k.sups| ==> k.sups[i].stale
    ensures var k' := BringUpAll(k, order);
            forall i :: 0 <= i < |k'.sups| && !k'.sups[i].stale ==> CapsOk(k', Name(k'.sups[i]), k'.sups[i].caps)
  {
    var k' := BringUpAll(k, order);
    BringUpAllRest(k, order);
    BringUpAllSups(k, order);
    forall i | 0 <= i < |k'.sups| && !k'.sups[i].stale ensures CapsOk(k', Name(k'.sups[i]), k'.sups[i].caps) {
      EffectiveOk(k, order[i - |k.sups|].manifest);
    }
  }

  lemma BeginSafe(k: Kernel, order: seq<Binding>)
    requires Safe(k) && CanStart(k, order)
    ensures Safe(Begin(k, order)) && Begin(k, order).policy == k.policy
  {
    var older := Older(k);
    forall n | n in k.effective ensures Named(order, n) { NamedPermuted(order, Active(k.bindings), n); }
    BringUpAllKept(older, order);
    BringUpAllRest(older, order);
    BringUpAllRenews(older, order);
    BringUpAllFresh(older, order);
    BringUpAllLost(older, order);
    BeginCapInv(BringUpAll(older, order), Begin(k, order));
  }

  lemma BeginCapInv(k: Kernel, k': Kernel)
    requires k' == k.(started := true)
    requires forall n :: n in k.effective ==> CapsOk(k, n, k.effective[n])
    requires forall i :: 0 <= i < |k.sups| && !k.sups[i].stale ==> CapsOk(k, Name(k.sups[i]), k.sups[i].caps)
    ensures CapInv(k')
  {
    assert forall n, c :: Grantable(k', n, c) <==> Grantable(k, n, c);
  }

  lemma ListedKept(k: Kernel, b: Binding)
    requires AllAllowed(k) && Kept(k)
    ensures AllAllowed(Listed(k, b)) && Kept(Listed(k, b))
  {}

  lemma StrayedKept(k: Kernel, b: Binding, caps: set<string>, spawn: Spawn, shares: bool)
    requires AllAllowed(k) && Kept(k) && b.manifest.name in k.effective
    requires forall c :: c in caps ==> k.policy.Allows(b.manifest.name, c)
    requires shares ==> caps == k.effective[b.manifest.name]
    ensures AllAllowed(Strayed(k, b, caps, spawn, shares)) && Kept(Strayed(k, b, caps, spawn, shares))
  {}

  lemma BeginFailedSafe(k: Kernel, order: seq<Binding>, n: nat, spawn: Spawn)
    requires Safe(k) && CanStart(k, order) && n < |order|
    ensures Safe(BeginFailed(k, order, n, spawn)) && BeginFailed(k, order, n, spawn).policy == k.policy
  {
    var k1, b := BringUpAll(k, order[..n]), order[n];
    BringUpAllKept(k, order[..n]);
    BringUpAllRest(k, order[..n]);
    ListedKept(k1, b);
    StrayedKept(Listed(k1, b), b, Effective(k1, b.manifest), spawn, true);
    var k' := BeginFailed(k, order, n, spawn);
    forall m | m in k'.effective ensures Named(Active(k.bindings), m) {
      NamedPermuted(order, Active(k.bindings), m);
      BringUpAllLists(k, order[..n], m);
      if m == b.manifest.name {
        assert Named(order, m);
      } else if Named(order[..n], m) {
        var i :| 0 <= i < n && order[..n][i].manifest.name == m;
        assert order[i].manifest.name == m;
      }
    }
  }

  // -- the other steps --

  lemma RestrictedSafe(k: Kernel, withheld: set<string>)
    requires Safe(k)
    ensures Safe(Restricted(k, withheld))
  {}

  lemma AskerKept(k: Kernel, caller: string)
    requires Kept(k) && CanAsk(k, caller)
    ensures caller in k.effective
  {}

  lemma GrantedAllowed(k: Kernel, caller: string, cap: string)
    requires AllAllowed(k) && caller in k.effective
    ensures AllAllowed(Granted(k, caller, cap))
  {}

  lemma GrantedKept(k: Kernel, caller: string, cap: string)
    requires Kept(k) && caller in k.effective
    ensures Kept(Granted(k, caller, cap))
  {}

  lemma GrantedCapInv(k: Kernel, caller: string, cap: string)
    requires CapInv(k) && caller in k.effective
    ensures CapInv(Granted(k, caller, cap))
  {
    assert forall n, c :: Grantable(Granted(k, caller, cap), n, c) <==> Grantable(k, n, c);
  }

  lemma GrantedRest(k: Kernel, caller: string, cap: string)
    requires caller in k.effective
    ensures var k' := Granted(k, caller, cap);
            && k'.policy == k.policy && k'.restricted == k.restricted && k'.bindings == k.bindings
            && k'.started == k.started && k'.over == k.over && k'.effective.Keys == k.effective.Keys
            && (NoneShares(k) ==> NoneShares(k'))
  {}

  lemma GrantedSafe(k: Kernel, caller: string, cap: string)
    requires Safe(k) && caller in k.effective
    ensures Safe(Granted(k, caller, cap))
  {
    GrantedRest(k, caller, cap);
    GrantedAllowed(k, caller, cap);
    GrantedKept(k, caller, cap);
    if k.started { GrantedCapInv(k, caller, cap); }
  }

  lemma ReboundSafe(k: Kernel, contract: string, config: Config, spawn: Spawn)
    requires Safe(k)
    ensures Safe(Rebound(k, contract, config, spawn))
  {
    if CanRebind(k, contract) && spawn.Up? {
      SwappedSafe(k, contract, config);
    } else if CanRebind(k, contract) {
      var was := k.sups[SupervisorOf(k.sups, contract)];
      var b := was.binding.(config := was.binding.config + config);
      StrayedKept(k, b, Effective(k, b.manifest), spawn, false);
    }
  }

  lemma SwappedSafe(k: Kernel, contract: string, config: Config)
    requires Safe(k) && CanRebind(k, contract)
    ensures Safe(Rebound(k, contract, config, Up))
  {
    EffectiveOk(k, k.sups[SupervisorOf(k.sups, contract)].binding.manifest);
  }

  predicate SameHeld(s: Supervisor, s': Supervisor) {
    Name(s') == Name(s) && s'.caps == s.caps && s'.stale == s.stale
  }

  // Whatever becomes of the processes, nobody's list is touched.
  ghost predicate SameLists(k: Kernel, k': Kernel) {
    && k'.policy == k.policy && k'.bindings == k.bindings
    && k'.restricted == k.restricted && k'.effective == k.effective
    && |k'.sups| == |k.sups| && (forall i :: 0 <= i < |k.sups| ==> SameHeld(k.sups[i], k'.sups[i]))
    && |k'.lost| == |k.lost|
    && (forall j :: 0 <= j < |k.lost| ==>
          SameHeld(k.lost[j].sup, k'.lost[j].sup) && k'.lost[j].shares == k.lost[j].shares)
  }

  lemma RestartedLists(k: Kernel, i: nat, exiting: Option<nat>, spawn: Spawn)
    requires i < |k.sups| && Exits(k.sups[i], exiting)
    ensures var k' := Restarted(k, i, exiting, spawn); SameLists(k, k') && k'.started == k.started && k'.over == k.over
  {}

  lemma LostRestartedLists(k: Kernel, j: nat, exiting: Option<nat>, spawn: Spawn)
    requires j < |k.lost| && Exits(k.lost[j].sup, exiting)
    ensures var k' := LostRestarted(k, j, exiting, spawn);
            SameLists(k, k') && k'.started == k.started && k'.over == k.over
  {}

  lemma StoppedLists(k: Kernel)
    ensures SameLists(k, Stopped(k))
  {}

  lemma SameListsSafe(k: Kernel, k': Kernel)
    requires Safe(k) && SameLists(k, k')
    requires (k'.started == k.started && k'.over == k.over) || (k.started && !k'.started && k'.over)
    ensures Safe(k')
  {
    assert forall n, c :: Grantable(k', n, c) <==> Grantable(k, n, c);
  }

  lemma KeepSafe(k: Kernel, st: Step)
    requires Safe(k) && Legal(k, st)
    ensures Safe(Apply(k, st)) && Apply(k, st).policy == k.policy
  {
    match st {
      case Start(order) => BeginSafe(k, order);
      case StartFails(order, n, spawn) => BeginFailedSafe(k, order, n, spawn);
      case Restrict(withheld) => RestrictedSafe(k, withheld);
      case Grant(caller, cap) =>
        AskerKept(k, caller);
        GrantedSafe(k, caller, cap);
      case Rebind(contract, config, spawn) => ReboundSafe(k, contract, config, spawn);
      case Restart(i, exiting, spawn) =>
        RestartedLists(k, i, exiting, spawn);
        SameListsSafe(k, Apply(k, st));
      case LostRestart(j, exiting, spawn) =>
        LostRestartedLists(k, j, exiting, spawn);
        SameListsSafe(k, Apply(k, st));
      case Stop =>
        StoppedLists(k);
        SameListsSafe(k, Apply(k, st));
    }
  }

  lemma {:induction false} RunSafe(k: Kernel, steps: seq<Step>, k': Kernel)
    requires Safe(k) && Run(k, steps, k')
    ensures Safe(k') && k'.policy == k.policy
    decreases |steps|
  {
    if steps != [] {
      KeepSafe(k, steps[0]);
      RunSafe(Apply(k, steps[0]), steps[1..], k');
    }
  }

  // Over any run: what a brick of a started kernel holds is covered by a grant of its policy and by no
  // deny; and it is covered by nothing withheld, unless the brick is stale. What the kernel keeps for a
  // name never is.
  lemma {:induction false} EffectiveWithinPolicy(k: Kernel, steps: seq<Step>, k': Kernel, i: nat, c: string)
    requires Initial(k) && Run(k, steps, k') && k'.started && i < |k'.sups|
    ensures c in k'.sups[i].caps ==> k.policy.Allows(Name(k'.sups[i]), c)
    ensures c in k'.sups[i].caps && !k'.sups[i].stale ==> !GrantedByAny(k'.restricted, c)
    ensures Name(k'.sups[i]) in k'.effective
    ensures c in k'.effective[Name(k'.sups[i])] ==>
      k.policy.Allows(Name(k'.sups[i]), c) && !GrantedByAny(k'.restricted, c)
  {
    RunSafe(k, steps, k');
  }

  // What the listed bricks hold is within what may be granted now.
  ghost predicate Within(k: Kernel) {
    forall i :: 0 <= i < |k.sups| ==> CapsOk(k, Name(k.sups[i]), k.sups[i].caps)
  }

  // Exactly when a start leaves nothing withheld with any brick: when none of the bricks that earlier
  // starts left in the list holds anything withheld.
  lemma StartWithin(k: Kernel, order: seq<Binding>)
    requires Safe(k) && CanStart(k, order)
    ensures Within(Begin(k, order)) <==>
            forall i, c :: 0 <= i < |k.sups| && c in k.sups[i].caps ==> !GrantedByAny(k.restricted, c)
  {
    var k', older := Begin(k, order), Older(k);
    BeginSafe(k, order);
    BringUpAllRest(older, order);
    BringUpAllSups(older, order);
    assert forall i :: 0 <= i < |k.sups| ==> k'.sups[i] == k.sups[i].(stale := true);
  }

  // A restriction gives every listed brick its list.
  lemma RestrictRenews(k: Kernel, withheld: set<string>)
    requires Safe(k) && k.started
    ensures Within(Restricted(k, withheld))
    ensures forall i :: 0 <= i < |k.sups| ==> !Restricted(k, withheld).sups[i].stale
  {}

  // A supervisor in the kernel's list, or one that is not.
  ghost predicate Known(k: Kernel, s: Supervisor) {
    s in k.sups || exists j :: 0 <= j < |k.lost| && k.lost[j].sup == s
  }

  // Hence every contract call the kernel forwards, for a listed supervisor's brick or a lost one's, is
  // covered by a grant to everybody or to the caller, through a held capability that no deny covers,
  // neither for everybody nor for the caller.
  lemma {:induction false} ForwardedWithinPolicy(
    k: Kernel, steps: seq<Step>, k': Kernel, s: Supervisor, contract: string, name: string)
    requires Initial(k) && Run(k, steps, k') && Known(k', s)
    requires MayCall(s.caps, contract, name)
    ensures exists g ::
      && (g in k.policy.grant || (Name(s) in k.policy.perBrickGrant && g in k.policy.perBrickGrant[Name(s)]))
      && Covers(g, CallCapability(contract, name))
    ensures exists h ::
      && h in s.caps && Covers(h, CallCapability(contract, name))
      && (forall d :: d in k.policy.deny ==> !Covers(d, h))
      && (Name(s) in k.policy.perBrickDeny ==> forall d :: d in k.policy.perBrickDeny[Name(s)] ==> !Covers(d, h))
  {
    RunSafe(k, steps, k');
    var call := CallCapability(contract, name);
    MayCallExact(s.caps, contract, name);
    var h :| h in s.caps && Covers(h, call);
    assert Allowed(k.policy, s);
    AllowsExact(k.policy, Name(s), h);
    var g :| (g in k.policy.grant || (Name(s) in k.policy.perBrickGrant && g in k.policy.perBrickGrant[Name(s)]))
             && Covers(g, h);
    CoversOrder(g, h, call);
  }

  // -- withholding --

  // No call that `w` covers passes the check for what is held.
  ghost predicate Withheld(caps: set<string>, w: string) {
    forall contract, name :: Covers(w, CallCapability(contract, name)) ==> !MayCall(caps, contract, name)
  }

  // `w` is shut to a list of capabilities just when none of them shares a call with it.
  lemma WithheldDecided(caps: set<string>, w: string)
    ensures Withheld(caps, w) <==> forall c :: c in caps ==> !ShareCallSegments(c, w)
  {
    forall contract, name, c
      | c in caps && Covers(w, CallCapability(contract, name)) && Covers(c, CallCapability(contract, name))
      ensures ShareCallSegments(c, w)
    {
      assert ShareCall(c, w);
      ShareCallDecided(c, w);
    }
    forall contract, name
      ensures MayCall(caps, contract, name) <==> GrantedByAny(caps, CallCapability(contract, name))
    {
      MayCallExact(caps, contract, name);
    }
    if c :| c in caps && ShareCallSegments(c, w) {
      ShareCallDecided(c, w);
      var contract, name :| Covers(c, CallCapability(contract, name)) && Covers(w, CallCapability(contract, name));
      assert MayCall(caps, contract, name);
    }
  }

  lemma HeldLets(caps: set<string>, g: string, w: string, contract: string, name: string)
    requires g in caps && Covers(g, CallCapability(contract, name)) && Covers(w, CallCapability(contract, name))
    ensures !Withheld(caps, w)
  {
    MayCallExact(caps, contract, name);
  }

  // Every grant that shares a call with `w` is itself out of reach: denied, or withheld as a whole.
  predicate Tight(policy: Policy, restricted: set<string>, brick: string, w: string) {
    forall g :: g in policy.GrantedTo(brick) && ShareCallSegments(g, w) ==>
      GrantedByAny(policy.DeniedTo(brick), g) || GrantedByAny(restricted, g)
  }

  lemma TightWithholds(k: Kernel, brick: string, caps: set<string>, w: string)
    requires CapsOk(k, brick, caps) && Tight(k.policy, k.restricted, brick, w)
    ensures Withheld(caps, w)
  {
    forall contract, name | Covers(w, CallCapability(contract, name)) ensures !MayCall(caps, contract, name) {
      var call := CallCapability(contract, name);
      MayCallExact(caps, contract, name);
      if h :| h in caps && Covers(h, call) {
        assert Grantable(k, brick, h);
        var g :| g in k.policy.GrantedTo(brick) && Covers(g, h);
        CoversOrder(g, h, call);
        assert ShareCall(g, w);
        ShareCallDecided(g, w);
        var d :| (d in k.policy.DeniedTo(brick) || d in k.restricted) && Covers(d, g);
        CoversOrder(d, g, h);
      }
    }
  }

  // If every grant that shares a call with a withheld capability is covered by it, no call it covers
  // passes for a brick that is not stale, in every state of every run in which it is withheld.
  lemma {:induction false} Withholding(k: Kernel, steps: seq<Step>, k': Kernel, i: nat, w: string)
    requires Initial(k) && Run(k, steps, k') && k'.started && i < |k'.sups| && w in k'.restricted
    requires forall g :: g in k.policy.GrantedTo(Name(k'.sups[i])) && ShareCall(g, w) ==> Covers(w, g)
    ensures k'.sups[i].stale || Withheld(k'.sups[i].caps, w)
  {
    RunSafe(k, steps, k');
    forall g | g in k.policy.GrantedTo(Name(k'.sups[i])) && ShareCallSegments(g, w)
      ensures GrantedByAny(k'.restricted, g)
    {
      ShareCallDecided(g, w);
    }
    if !k'.sups[i].stale { TightWithholds(k', Name(k'.sups[i]), k'.sups[i].caps, w); }
  }

  lemma {:induction false} TwoSegments(a: string, b: string)
    requires ':' !in a && ':' !in b
    ensures Segments(a + ":" + b) == [a, b]
  {
    SegmentsConcat(a, b);
    SegmentsPlain(a);
    SegmentsPlain(b);
  }

  lemma {:induction false} RunTwo(k: Kernel, st1: Step, st2: Step)
    requires Legal(k, st1) && Legal(Apply(k, st1), st2)
    ensures Run(k, [st1, st2], Apply(Apply(k, st1), st2))
  {
    assert [st1, st2][1..] == [st2] && [st2][1..] == [];
    assert Run(Apply(k, st1), [st2], Apply(Apply(k, st1), st2));
  }

  lemma {:induction false} RunThree(k: Kernel, st1: Step, st2: Step, st3: Step)
    requires Legal(k, st1) && Legal(Apply(k, st1), st2) && Legal(Apply(Apply(k, st1), st2), st3)
    ensures Run(k, [st1, st2, st3], Apply(Apply(Apply(k, st1), st2), st3))
  {
    RunTwo(Apply(k, st1), st2, st3);
    assert [st1, st2, st3][1..] == [st2, st3];
  }

  const ALL := "contract" + ":" + "*"
  const MEMORY := "contract" + ":" + "memory"

  // A star, or the contract's name, behind a root covers that contract's calls; a name that is no star
  // does not cover the star.
  lemma {:induction false} RootCovers(root: string, contract: string, name: string)
    requires ':' !in root && ':' !in contract && contract != "*"
    ensures var call := root + ":" + (contract + ":" + name);
            Covers(root + ":" + "*", call) && Covers(root + ":" + contract, call)
    ensures !Covers(root + ":" + contract, root + ":" + "*")
  {
    TwoSegments(root, "*");
    TwoSegments(root, contract);
    RootSegments(root, contract, name);
    SegmentsPlain(contract);
    var call := Segments(root + ":" + (contract + ":" + name));
    assert |call| >= 2 && call[0] == root && call[1] == contract;
    var star := Segments(root + ":" + "*");
    assert star[0] == root && star[1] == "*";
    var short := Segments(root + ":" + contract);
    assert short[0] == root && short[1] == contract;
  }

  lemma MemorySearch()
    ensures Covers(ALL, ALL) && !Covers(MEMORY, ALL)
    ensures Covers(ALL, CallCapability("memory", "search")) && Covers(MEMORY, CallCapability("memory", "search"))
  {
    var star, memory := "*", "memory";
    assert |memory| != |star|;
    RootCovers("contract", memory, "search");
    CallText(memory, "search");
    CoversOrder(ALL, ALL, ALL);
  }

  // A brick granted and holding `g` makes a call that `w` covers too, although `w` is withheld.
  lemma LeakExample(g: string, w: string, contract: string, name: string)
    returns (k: Kernel, steps: seq<Step>, k': Kernel)
    requires Covers(g, CallCapability(contract, name)) && Covers(w, CallCapability(contract, name)) && !Covers(w, g)
    ensures Initial(k) && k.policy.grant == {g} && Run(k, steps, k') && k'.started && |k'.sups| == 1
    ensures w in k'.restricted && MayCall(k'.sups[0].caps, contract, name) && !Withheld(k'.sups[0].caps, w)
  {
    var b := Binding("orchestrator", Manifest("brick", [g]), map[], false);
    k := Kernel(Policy({g}, {}, map[], map[]), [b], [], [], map[], {}, false, false, map[], {}, 0);
    assert Active([b]) == [b] by { assert Active([]) == []; }
    var k1 := Apply(k, Restrict({w}));
    assert Older(k1) == k1;
    assert BringUpAll(k1, [b]) == BringUp(k1, b) by { assert [b][..0] == []; }
    k' := Apply(k1, Start([b]));
    steps := [Restrict({w}), Start([b])];
    RunTwo(k, Restrict({w}), Start([b]));
    CoversOrder(g, g, g);
    assert Grantable(k1, "brick", g) && g in b.manifest.wants;
  }

  // Withholding alone is not enough: with `contract:*` granted and held, `contract:memory` withheld
  // still lets `memory.search` through.
  lemma WithholdingFails() returns (k: Kernel, steps: seq<Step>, k': Kernel)
    ensures Initial(k) && k.policy.grant == {ALL} && Run(k, steps, k') && k'.started && |k'.sups| == 1
    ensures MEMORY in k'.restricted && !Withheld(k'.sups[0].caps, MEMORY)
  {
    MemorySearch();
    k, steps, k' := LeakExample(ALL, MEMORY, "memory", "search");
  }

  // From a state on, while it stays started under the same restriction.
  ghost predicate Later(k: Kernel, steps: seq<Step>, k': Kernel) {
    Run(k, steps, k') && k'.started && k'.restricted == k.restricted
  }

  // The i-th supervisor still has its name, and its list, too, if it is stale.
  ghost predicate Stays(k: Kernel, k': Kernel, i: nat) {
    && i < |k.sups| == |k'.sups| && Name(k'.sups[i]) == Name(k.sups[i])
    && (k'.sups[i].stale ==> k.sups[i].stale && k'.sups[i].caps == k.sups[i].caps)
  }

  lemma StepStays(k: Kernel, st: Step, i: nat)
    requires Legal(k, st) && (k.started || k.over) && i < |k.sups|
    ensures Stays(k, Apply(k, st), i) && (Apply(k, st).started || Apply(k, st).over)
  {
    match st {
      case Restrict(withheld) =>
      case Grant(caller, cap) =>
      case Rebind(contract, config, spawn) => RebindStays(k, contract, config, spawn, i);
      case Restart(j, exiting, spawn) => RestartedLists(k, j, exiting, spawn);
      case LostRestart(j, exiting, spawn) => LostRestartedLists(k, j, exiting, spawn);
      case Stop =>
        StoppedLists(k);
        assert SameHeld(k.sups[i], Stopped(k).sups[i]);
    }
  }

  lemma RebindStays(k: Kernel, contract: string, config: Config, spawn: Spawn, i: nat)
    requires i < |k.sups|
    ensures var k' := Rebound(k, contract, config, spawn);
            Stays(k, k', i) && k'.started == k.started && k'.over == k.over
  {}

  lemma {:induction false} RunStays(k: Kernel, steps: seq<Step>, k': Kernel, i: nat)
    requires Run(k, steps, k') && (k.started || k.over) && i < |k.sups|
    ensures Stays(k, k', i)
    decreases |steps|
  {
    if steps != [] {
      StepStays(k, steps[0], i);
      RunStays(Apply(k, steps[0]), steps[1..], k', i);
    }
  }

  lemma RestrictedAsks(k: Kernel, withheld: set<string>, caller: string)
    requires CanAsk(k, caller)
    ensures CanAsk(Restricted(k, withheld), caller)
  {
    var k' := Restricted(k, withheld);
    if i :| 0 <= i < |k.sups| && Asks(k.sups[i], caller) { assert Asks(k'.sups[i], caller); }
    if j :| 0 <= j < |k.lost| && Asks(k.lost[j].sup, caller) { assert Asks(k'.lost[j].sup, caller); }
  }

  // A grant out of nobody's reach can be asked for, and then lets a call through.
  lemma LooseLeaks(k: Kernel, i: nat, w: string, g: string) returns (steps: seq<Step>, k': Kernel)
    requires Kept(k) && k.started && i < |k.sups| && CanAsk(k, Name(k.sups[i]))
    requires g in k.policy.GrantedTo(Name(k.sups[i])) && ShareCallSegments(g, w)
    requires !GrantedByAny(k.policy.DeniedTo(Name(k.sups[i])), g) && !GrantedByAny(k.restricted, g)
    ensures Later(k, steps, k') && i < |k'.sups| && !Withheld(k'.sups[i].caps, w)
  {
    var caller := Name(k.sups[i]);
    steps := [Restrict(k.restricted), Grant(caller, g)];
    var k1 := Apply(k, steps[0]);
    RestrictedAsks(k, k.restricted, caller);
    RestrictedShares(k, i);
    CoversOrder(g, g, g);
    assert Grantable(k1, caller, g);
    k' := Apply(k1, steps[1]);
    RunTwo(k, steps[0], steps[1]);
    GrantGives(k1, i, g);
    WithheldDecided(k'.sups[i].caps, w);
  }

  // A restriction gives every listed brick the very list the kernel keeps for its name.
  lemma RestrictedShares(k: Kernel, i: nat)
    requires k.started && i < |k.sups| && Name(k.sups[i]) in k.effective
    ensures var k' := Restricted(k, k.restricted);
            && k'.started && k'.restricted == k.restricted && k'.policy == k.policy && i < |k'.sups|
            && Name(k'.sups[i]) == Name(k.sups[i]) && Name(k.sups[i]) in k'.effective
            && k'.sups[i].caps == k'.effective[Name(k.sups[i])]
  {}

  lemma GrantGives(k: Kernel, i: nat, cap: string)
    requires i < |k.sups| && Name(k.sups[i]) in k.effective && k.sups[i].caps == k.effective[Name(k.sups[i])]
    requires Grantable(k, Name(k.sups[i]), cap)
    ensures var k' := Granted(k, Name(k.sups[i]), cap);
            && k'.started == k.started && k'.restricted == k.restricted && i < |k'.sups| && cap in k'.sups[i].caps
  {}

  // Exactly when withholding `w` holds for good: `w` stays shut to a listed brick in everything that
  // can follow, if and only if it is shut now and every grant of its policy that shares a call with it
  // is covered by a deny or by something withheld. Unless the brick is stale, the second half is enough.
  lemma {:induction false} WithholdingExact(k0: Kernel, steps0: seq<Step>, k: Kernel, i: nat, w: string)
    requires Initial(k0) && Run(k0, steps0, k) && k.started && i < |k.sups| && CanAsk(k, Name(k.sups[i]))
    ensures Withheld(k.sups[i].caps, w) && Tight(k.policy, k.restricted, Name(k.sups[i]), w) <==>
            forall steps, k' :: Later(k, steps, k') && i < |k'.sups| ==> Withheld(k'.sups[i].caps, w)
    ensures !k.sups[i].stale && Tight(k.policy, k.restricted, Name(k.sups[i]), w) ==> Withheld(k.sups[i].caps, w)
  {
    RunSafe(k0, steps0, k);
    var name, caps := Name(k.sups[i]), k.sups[i].caps;
    if !k.sups[i].stale && Tight(k.policy, k.restricted, name, w) { TightWithholds(k, name, caps, w); }
    if !Withheld(caps, w) {
      var none: seq<Step> := [];
      assert Later(k, none, k);
    } else if Tight(k.policy, k.restricted, name, w) {
      forall steps, k' | Later(k, steps, k') && i < |k'.sups| ensures Withheld(k'.sups[i].caps, w) {
        RunSafe(k, steps, k');
        RunStays(k, steps, k', i);
        if !k'.sups[i].stale { TightWithholds(k', name, k'.sups[i].caps, w); }
      }
    } else {
      var g :| g in k.policy.GrantedTo(name) && ShareCallSegments(g, w)
        && !GrantedByAny(k.policy.DeniedTo(name), g) && !GrantedByAny(k.restricted, g);
      var steps, k' := LooseLeaks(k, i, w, g);
    }
  }
}
