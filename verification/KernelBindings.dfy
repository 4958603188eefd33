// Contracts, supervisors and configurations over whole kernel runs.
module KernelBindings {
  import opened Prelude
  import opened KernelModel
  import opened KernelOwners

  // The processes of the handles at hand.
  function UpProcesses(sups: seq<Supervisor>): set<nat> {
    if sups == [] then {}
    else
      var s := sups[|sups| - 1];
      UpProcesses(sups[..|sups| - 1]) + if s.up then {s.process} else {}
  }

  ghost predicate HasSupervisor(sups: seq<Supervisor>, b: Binding) {
    var i := SupervisorOf(sups, b.contract);
    i < |sups| && sups[i].binding == b
  }

  // Each active binding has a supervisor, and the first of its contract holds that very binding.
  ghost predicate Supervised(bindings: seq<Binding>, sups: seq<Supervisor>) {
    forall b :: ActiveIn(bindings, b) ==> HasSupervisor(sups, b)
  }

  // No contract has two supervisors.
  ghost predicate OneEach(sups: seq<Supervisor>) {
    forall i, j :: 0 <= i < j < |sups| ==> sups[i].binding.contract != sups[j].binding.contract
  }

  // A contract resolves just when it has a supervisor, and to that one's latest process.
  ghost predicate ResolvesTo(sups: seq<Supervisor>, registry: map<string, nat>, c: string) {
    var i := SupervisorOf(sups, c);
    if i < |sups| then c in registry && registry[c] == sups[i].process else c !in registry
  }

  ghost predicate Registered(sups: seq<Supervisor>, registry: map<string, nat>) {
    forall c :: ResolvesTo(sups, registry, c)
  }

  // Numbers tell the latest processes apart.
  ghost predicate Numbered(sups: seq<Supervisor>, spawned: nat) {
    && (forall i, j :: 0 <= i < j < |sups| ==> sups[i].process != sups[j].process)
    && (forall i :: 0 <= i < |sups| ==> sups[i].process <= spawned)
  }

  // What the kernel's tables are meant to say: they name exactly the live processes.
  ghost predicate Bound(k: Kernel) {
    Registered(k.sups, k.registry) && k.running == UpProcesses(k.sups)
  }

  // A process that a lost supervisor of the contract brought up.
  ghost predicate TakenOver(lost: seq<Lost>, c: string, p: nat) {
    exists j :: 0 <= j < |lost| && lost[j].sup.binding.contract == c && lost[j].sup.process == p
  }

  // The latest process of a supervisor of the contract, listed or lost.
  ghost predicate Bears(sups: seq<Supervisor>, lost: seq<Lost>, c: string, p: nat) {
    || (exists i :: 0 <= i < |sups| && sups[i].binding.contract == c && sups[i].process == p)
    || TakenOver(lost, c, p)
  }

  ghost predicate Claimed(sups: seq<Supervisor>, lost: seq<Lost>, registry: map<string, nat>) {
    && (forall c :: c in registry ==> Bears(sups, lost, c, registry[c]))
    && (forall i :: 0 <= i < |sups| ==> sups[i].binding.contract in registry)
  }

  // A handle at hand is that of a live process.
  ghost predicate HandlesLive(sups: seq<Supervisor>) {
    forall i :: 0 <= i < |sups| && sups[i].up ==> sups[i].process in sups[i].live
  }

  // An active binding has this contract and this manifest.
  ghost predicate OfActive(bindings: seq<Binding>, b: Binding) {
    exists a :: ActiveIn(bindings, a) && a.contract == b.contract && a.manifest == b.manifest
  }

  // The first supervisor of an active contract, if there is one, holds its binding.
  ghost predicate Heads(bindings: seq<Binding>, sups: seq<Supervisor>) {
    forall b :: ActiveIn(bindings, b) && SupervisorOf(sups, b.contract) < |sups| ==> HasSupervisor(sups, b)
  }

  ghost predicate SupActive(bindings: seq<Binding>, sups: seq<Supervisor>, i: nat) {
    i < |sups| ==> OfActive(bindings, sups[i].binding)
  }

  ghost predicate LostActive(bindings: seq<Binding>, lost: seq<Lost>, j: nat) {
    j < |lost| ==> OfActive(bindings, lost[j].sup.binding)
  }

  // Every supervisor, listed or lost, is of an active binding.
  ghost predicate Backed(bindings: seq<Binding>, sups: seq<Supervisor>, lost: seq<Lost>) {
    (forall i: nat :: SupActive(bindings, sups, i)) && (forall j: nat :: LostActive(bindings, lost, j))
  }

  ghost predicate Bindings(k: Kernel) {
    && Backed(k.bindings, k.sups, k.lost)
    && Heads(k.bindings, k.sups)
    && (k.started ==> Supervised(k.bindings, k.sups))
  }

  // What the tables say until the kernel is stopped.
  ghost predicate Tables(k: Kernel) {
    Bindings(k) && Numbered(k.sups, k.spawned) && HandlesLive(k.sups) && Claimed(k.sups, k.lost, k.registry)
  }

  // -- the list of supervisors --

  lemma {:induction false} SupervisorAt(sups: seq<Supervisor>, i: nat)
    requires i < |sups|
    ensures SupervisorOf(sups, sups[i].binding.contract) <= i
    ensures OneEach(sups) ==> SupervisorOf(sups, sups[i].binding.contract) == i
  {
    if i > 0 { SupervisorAt(sups[1..], i - 1); }
  }

  lemma {:induction false} SupervisorSame(a: seq<Supervisor>, b: seq<Supervisor>, c: string)
    requires |a| == |b| && forall i :: 0 <= i < |a| ==> a[i].binding.contract == b[i].binding.contract
    ensures SupervisorOf(a, c) == SupervisorOf(b, c)
  {
    if a != [] { SupervisorSame(a[1..], b[1..], c); }
  }

  lemma {:induction false} SupervisorSnoc(sups: seq<Supervisor>, s: Supervisor, c: string)
    ensures var i := SupervisorOf(sups, c);
            SupervisorOf(sups + [s], c) ==
            if i < |sups| then i else if s.binding.contract == c then |sups| else |sups| + 1
  {
    if sups != [] {
      SupervisorSnoc(sups[1..], s, c);
      assert (sups + [s])[1..] == sups[1..] + [s];
    }
  }

  lemma {:induction false} UpMembers(sups: seq<Supervisor>, p: nat)
    ensures p in UpProcesses(sups) <==> exists i :: 0 <= i < |sups| && sups[i].up && sups[i].process == p
  {
    if sups != [] {
      var before := sups[..|sups| - 1];
      UpMembers(before, p);
      assert forall i :: 0 <= i < |before| ==> sups[i] == before[i];
    }
  }

  // -- start --

  lemma {:induction false} ActiveDistinct(bindings: seq<Binding>)
    requires Distinct(bindings)
    ensures Distinct(Active(bindings))
  {
    if bindings != [] {
      ActiveDistinct(bindings[1..]);
      forall b | b in Active(bindings[1..]) ensures b.contract != bindings[0].contract {
        ActiveMembers(bindings[1..], b);
      }
    }
  }

  lemma {:induction false} DistinctOnce(s: seq<Binding>, b: Binding)
    requires Distinct(s)
    ensures multiset(s)[b] <= 1
  {
    if s != [] {
      assert s == s[..|s| - 1] + [s[|s| - 1]];
      DistinctOnce(s[..|s| - 1], b);
      assert b == s[|s| - 1] ==> b !in s[..|s| - 1];
    }
  }

  lemma TwiceInMultiset(s: seq<Binding>, i: nat, j: nat)
    requires i < j < |s| && s[i] == s[j]
    ensures multiset(s)[s[i]] >= 2
  {
    assert s == s[..j] + [s[j]] + s[j+1..];
    assert s[i] in s[..j];
  }

  lemma PermutedDistinct(order: seq<Binding>, active: seq<Binding>)
    requires multiset(order) == multiset(active) && Distinct(active)
    ensures Distinct(order)
    ensures forall b :: b in order <==> b in active
  {
    forall b ensures b in order <==> b in active { assert b in multiset(order) <==> b in multiset(active); }
    forall i, j | 0 <= i < j < |order| ensures order[i].contract != order[j].contract {
      if order[i].contract == order[j].contract {
        assert order[i] in active && order[j] in active;
        assert order[i] == order[j];
        DistinctOnce(active, order[i]);
        TwiceInMultiset(order, i, j);
      }
    }
  }

  lemma BackedStill(bindings: seq<Binding>, sups: seq<Supervisor>, lost: seq<Lost>, sups': seq<Supervisor>,
                    lost': seq<Lost>)
    requires Backed(bindings, sups, lost)
    requires forall i :: 0 <= i < |sups'| ==>
      (i < |sups| && sups'[i].binding == sups[i].binding) || OfActive(bindings, sups'[i].binding)
    requires forall j :: 0 <= j < |lost'| ==>
      (j < |lost| && lost'[j].sup.binding == lost[j].sup.binding) || OfActive(bindings, lost'[j].sup.binding)
    ensures Backed(bindings, sups', lost')
  {
    forall i: nat ensures SupActive(bindings, sups', i) { assert SupActive(bindings, sups, i); }
    forall j: nat ensures LostActive(bindings, lost', j) { assert LostActive(bindings, lost, j); }
  }

  lemma BringUpBindings(k: Kernel, b: Binding)
    requires Bindings(k) && !k.started && Distinct(k.bindings) && ActiveIn(k.bindings, b)
    ensures Bindings(BringUp(k, b))
  {
    var k' := BringUp(k, b);
    assert OfActive(k.bindings, b);
    BackedStill(k.bindings, k.sups, k.lost, k'.sups, k'.lost);
    forall a | ActiveIn(k.bindings, a) && SupervisorOf(k'.sups, a.contract) < |k'.sups|
      ensures HasSupervisor(k'.sups, a)
    {
      SupervisorSnoc(k.sups, k'.sups[|k.sups|], a.contract);
      if SupervisorOf(k.sups, a.contract) < |k.sups| { assert HasSupervisor(k.sups, a); }
    }
  }

  lemma BringUpClaimed(k: Kernel, b: Binding)
    requires Claimed(k.sups, k.lost, k.registry)
    ensures var k' := BringUp(k, b); Claimed(k'.sups, k'.lost, k'.registry)
  {
    var k' := BringUp(k, b);
    assert k'.sups[|k.sups|].binding.contract == b.contract && k'.sups[|k.sups|].process == k.spawned + 1;
    BearsStill(k.sups, k.lost, k'.sups, k'.lost, k.registry);
  }

  // Nobody's contract or latest process has changed, and more may have joined.
  ghost predicate Grown(sups: seq<Supervisor>, sups': seq<Supervisor>) {
    |sups| <= |sups'| && forall i :: 0 <= i < |sups| ==>
      sups'[i].binding.contract == sups[i].binding.contract && sups'[i].process == sups[i].process
  }

  ghost predicate GrownLost(lost: seq<Lost>, lost': seq<Lost>) {
    |lost| <= |lost'| && forall j :: 0 <= j < |lost| ==>
      lost'[j].sup.binding.contract == lost[j].sup.binding.contract && lost'[j].sup.process == lost[j].sup.process
  }

  lemma BearsStill(sups: seq<Supervisor>, lost: seq<Lost>, sups': seq<Supervisor>, lost': seq<Lost>,
                   registry: map<string, nat>)
    requires Grown(sups, sups') && GrownLost(lost, lost')
    requires forall c :: c in registry ==> Bears(sups, lost, c, registry[c])
    ensures forall c :: c in registry ==> Bears(sups', lost', c, registry[c])
  {
    forall c | c in registry ensures Bears(sups', lost', c, registry[c]) {
      if TakenOver(lost, c, registry[c]) {
        var j :| 0 <= j < |lost| && lost[j].sup.binding.contract == c && lost[j].sup.process == registry[c];
        assert lost'[j].sup.binding.contract == c && lost'[j].sup.process == registry[c];
      } else {
        var i :| 0 <= i < |sups| && sups[i].binding.contract == c && sups[i].process == registry[c];
        assert sups'[i].binding.contract == c && sups'[i].process == registry[c];
      }
    }
  }

  lemma BringUpTables(k: Kernel, b: Binding)
    requires Tables(k) && !k.started && Distinct(k.bindings) && ActiveIn(k.bindings, b)
    ensures Tables(BringUp(k, b))
  {
    BringUpBindings(k, b);
    BringUpClaimed(k, b);
    BringUpNumbered(k, b);
  }

  lemma BringUpNumbered(k: Kernel, b: Binding)
    requires Numbered(k.sups, k.spawned) && HandlesLive(k.sups)
    ensures Numbered(BringUp(k, b).sups, BringUp(k, b).spawned) && HandlesLive(BringUp(k, b).sups)
  {}

  lemma {:induction false} BringUpAllTables(k: Kernel, order: seq<Binding>)
    requires Tables(k) && !k.started && Distinct(k.bindings)
    requires forall i :: 0 <= i < |order| ==> ActiveIn(k.bindings, order[i])
    ensures Tables(BringUpAll(k, order))
  {
    if order != [] {
      var front, b := order[..|order| - 1], order[|order| - 1];
      BringUpAllTables(k, front);
      BringUpAllRest(k, front);
      BringUpTables(BringUpAll(k, front), b);
    }
  }

  lemma OrderActive(k: Kernel, order: seq<Binding>)
    requires CanStart(k, order)
    ensures forall b :: b in order <==> ActiveIn(k.bindings, b)
  {
    forall b ensures b in order <==> ActiveIn(k.bindings, b) {
      assert b in order <==> b in multiset(order);
      assert b in Active(k.bindings) <==> b in multiset(Active(k.bindings));
      ActiveMembers(k.bindings, b);
    }
  }

  // A start brings up a contract that is listed already once more.
  lemma {:induction false} ContractAgain(k: Kernel, order: seq<Binding>) returns (i: nat)
    requires Bindings(k) && CanStart(k, order) && k.sups != []
    ensures i < |order| && order[i].contract == k.sups[0].binding.contract
  {
    assert SupActive(k.bindings, k.sups, 0);
    var a :| ActiveIn(k.bindings, a) && a.contract == k.sups[0].binding.contract;
    OrderActive(k, order);
    i :| 0 <= i < |order| && order[i] == a;
  }

  // Lists of capabilities do not matter here.
  ghost predicate SameButCaps(k: Kernel, k': Kernel) {
    && |k'.sups| == |k.sups|
    && (forall i :: 0 <= i < |k.sups| ==>
          k'.sups[i] == k.sups[i].(caps := k'.sups[i].caps, stale := k'.sups[i].stale))
    && |k'.lost| == |k.lost|
    && (forall j :: 0 <= j < |k.lost| ==>
          k'.lost[j].sup == k.lost[j].sup.(caps := k'.lost[j].sup.caps) && k'.lost[j].stopped == k.lost[j].stopped)
    && k'.registry == k.registry && k'.running == k.running && k'.spawned == k.spawned
    && k'.bindings == k.bindings && k'.started == k.started && k'.over == k.over
  }

  lemma SameHeads(bindings: seq<Binding>, sups: seq<Supervisor>, sups': seq<Supervisor>)
    requires |sups'| == |sups| && forall i :: 0 <= i < |sups| ==> sups'[i].binding == sups[i].binding
    ensures Heads(bindings, sups) ==> Heads(bindings, sups')
    ensures Supervised(bindings, sups) ==> Supervised(bindings, sups')
  {
    forall b: Binding
      ensures HasSupervisor(sups, b) ==> HasSupervisor(sups', b)
      ensures SupervisorOf(sups', b.contract) == SupervisorOf(sups, b.contract)
    {
      SupervisorSame(sups, sups', b.contract);
    }
  }

  lemma SameTables(k: Kernel, k': Kernel)
    requires Tables(k) && SameButCaps(k, k')
    ensures Tables(k')
  {
    SameHeads(k.bindings, k.sups, k'.sups);
    BackedStill(k.bindings, k.sups, k.lost, k'.sups, k'.lost);
    BearsStill(k.sups, k.lost, k'.sups, k'.lost, k.registry);
  }

  ghost predicate ListedAt(sups: seq<Supervisor>, order: seq<Binding>, n: nat, i: nat) {
    i < |order| ==> n + i < |sups| && sups[n + i].binding == order[i]
  }

  // Behind the first n supervisors there is one for each active binding.
  lemma {:induction false} AllListed(bindings: seq<Binding>, sups: seq<Supervisor>, order: seq<Binding>, n: nat)
    requires Heads(bindings, sups) && forall b :: ActiveIn(bindings, b) ==> b in order
    requires forall i: nat :: ListedAt(sups, order, n, i)
    ensures Supervised(bindings, sups)
  {
    forall b | ActiveIn(bindings, b) ensures HasSupervisor(sups, b) {
      var i :| 0 <= i < |order| && order[i] == b;
      assert ListedAt(sups, order, n, i);
      SupervisorAt(sups, n + i);
    }
  }

  lemma {:induction false} BroughtUpListed(k: Kernel, order: seq<Binding>)
    ensures forall i: nat :: ListedAt(BringUpAll(k, order).sups, order, |k.sups|, i)
  {
    var sups := BringUpAll(k, order).sups;
    BringUpAllSups(k, order);
    forall i: nat ensures ListedAt(sups, order, |k.sups|, i) {
      if i < |order| { assert sups[|k.sups| + i].binding == order[i]; }
    }
  }

  lemma {:induction false} StartTables(k: Kernel, order: seq<Binding>)
    requires Tables(k) && CanStart(k, order) && Distinct(k.bindings)
    ensures Tables(BringUpAll(k, order))
  {
    OrderActive(k, order);
    forall i | 0 <= i < |order| ensures ActiveIn(k.bindings, order[i]) { assert order[i] in order; }
    BringUpAllTables(k, order);
  }

  lemma {:induction false} BroughtUpTables(k: Kernel, order: seq<Binding>)
    requires Tables(k) && CanStart(k, order) && Distinct(k.bindings)
    ensures Tables(BringUpAll(k, order)) && Supervised(k.bindings, BringUpAll(k, order).sups)
  {
    StartTables(k, order);
    OrderActive(k, order);
    BringUpAllRest(k, order);
    BroughtUpListed(k, order);
    AllListed(k.bindings, BringUpAll(k, order).sups, order, |k.sups|);
  }

  lemma OlderSame(k: Kernel)
    ensures SameButCaps(k, Older(k))
  {}

  lemma {:induction false} BeginTables(k: Kernel, order: seq<Binding>)
    requires Tables(k) && CanStart(k, order) && Distinct(k.bindings)
    ensures Tables(Begin(k, order))
  {
    var older := Older(k);
    OlderSame(k);
    SameTables(k, older);
    BroughtUpTables(older, order);
    BringUpAllRest(older, order);
    StartedTables(BringUpAll(older, order));
  }

  lemma StartedTables(k: Kernel)
    requires Tables(k) && Supervised(k.bindings, k.sups)
    ensures Tables(k.(started := true))
  {}

  lemma AddLostTables(k: Kernel, k': Kernel)
    requires Tables(k) && GrownLost(k.lost, k'.lost) && k.spawned <= k'.spawned
    requires k'.sups == k.sups && k'.registry == k.registry && k'.bindings == k.bindings && k'.started == k.started
    requires forall j :: 0 <= j < |k'.lost| ==>
      (j < |k.lost| && k'.lost[j].sup.binding == k.lost[j].sup.binding) || OfActive(k.bindings, k'.lost[j].sup.binding)
    ensures Tables(k')
  {
    BackedStill(k.bindings, k.sups, k.lost, k'.sups, k'.lost);
    BearsStill(k.sups, k.lost, k'.sups, k'.lost, k.registry);
  }

  lemma StrayedTables(k: Kernel, b: Binding, caps: set<string>, spawn: Spawn, shares: bool)
    requires Tables(k) && OfActive(k.bindings, b)
    ensures Tables(Strayed(k, b, caps, spawn, shares))
  {
    AddLostTables(k, Strayed(k, b, caps, spawn, shares));
  }

  lemma BeginFailedTables(k: Kernel, order: seq<Binding>, n: nat, spawn: Spawn)
    requires Tables(k) && CanStart(k, order) && Distinct(k.bindings) && n < |order|
    ensures Tables(BeginFailed(k, order, n, spawn))
  {
    var k1, b := BringUpAll(k, order[..n]), order[n];
    OrderActive(k, order);
    BringUpAllTables(k, order[..n]);
    BringUpAllRest(k, order[..n]);
    assert ActiveIn(k.bindings, b);
    AddLostTables(k1, Listed(k1, b));
    StrayedTables(Listed(k1, b), b, Effective(k1, b.manifest), spawn, true);
  }

  // -- the other steps --

  lemma SwapNumbered(sups: seq<Supervisor>, spawned: nat, spawned': nat, i: nat, s: Supervisor)
    requires Numbered(sups, spawned) && HandlesLive(sups) && i < |sups| && spawned <= spawned'
    requires s.binding.contract == sups[i].binding.contract && (s.up ==> s.process in s.live)
    requires s.process == sups[i].process || s.process == spawned + 1 == spawned'
    ensures Numbered(sups[i := s], spawned') && HandlesLive(sups[i := s])
  {}

  lemma BearsSwap(sups: seq<Supervisor>, lost: seq<Lost>, registry: map<string, nat>, i: nat, s: Supervisor)
    requires Claimed(sups, lost, registry) && i < |sups| && s.binding.contract == sups[i].binding.contract
    requires s.process == sups[i].process
    ensures Claimed(sups[i := s], lost, registry)
  {
    BearsStill(sups, lost, sups[i := s], lost, registry);
  }

  // The contract resolves to the new process from now on.
  lemma BearsBound(sups: seq<Supervisor>, lost: seq<Lost>, lost': seq<Lost>, registry: map<string, nat>, i: nat,
                   s: Supervisor)
    requires Claimed(sups, lost, registry) && i < |sups| && s.binding.contract == sups[i].binding.contract
    requires Numbered(sups, s.process) && GrownLost(lost, lost')
    ensures Claimed(sups[i := s], lost', registry[s.binding.contract := s.process])
  {
    var sups', registry' := sups[i := s], registry[s.binding.contract := s.process];
    assert sups'[i].binding.contract == s.binding.contract && sups'[i].process == s.process;
    forall c | c in registry' ensures Bears(sups', lost', c, registry'[c]) {
      if c != s.binding.contract {
        assert Bears(sups, lost, c, registry[c]);
        OtherBears(sups, lost, lost', i, s, c, registry[c]);
      }
    }
  }

  lemma OtherBears(sups: seq<Supervisor>, lost: seq<Lost>, lost': seq<Lost>, i: nat, s: Supervisor, c: string, p: nat)
    requires Bears(sups, lost, c, p) && i < |sups| && sups[i].binding.contract != c && GrownLost(lost, lost')
    ensures Bears(sups[i := s], lost', c, p)
  {
    if TakenOver(lost, c, p) {
      var j :| 0 <= j < |lost| && lost[j].sup.binding.contract == c && lost[j].sup.process == p;
      assert lost'[j].sup.binding.contract == c && lost'[j].sup.process == p;
    } else {
      var x :| 0 <= x < |sups| && sups[x].binding.contract == c && sups[x].process == p;
      assert sups[i := s][x] == sups[x];
    }
  }

  // The i-th supervisor is another one, of the same binding; the rest of the tables as the exit and
  // the spawn leave them.
  lemma SetTables(k: Kernel, k': Kernel, i: nat, s: Supervisor)
    requires Tables(k) && i < |k.sups| && s.binding == k.sups[i].binding && (s.up ==> s.process in s.live)
    requires k'.bindings == k.bindings && k'.sups == k.sups[i := s] && k'.lost == k.lost && k.spawned <= k'.spawned
    requires k'.started == k.started
    requires || (s.process == k.spawned + 1 == k'.spawned
                 && k'.registry == k.registry[s.binding.contract := s.process])
             || (k'.registry == k.registry && s.process == k.sups[i].process)
    ensures Tables(k')
  {
    SameHeads(k.bindings, k.sups, k'.sups);
    BackedStill(k.bindings, k.sups, k.lost, k'.sups, k'.lost);
    SwapNumbered(k.sups, k.spawned, k'.spawned, i, s);
    if s.process == k.sups[i].process {
      BearsSwap(k.sups, k.lost, k.registry, i, s);
    } else {
      BearsBound(k.sups, k.lost, k.lost, k.registry, i, s);
    }
  }

  lemma RestartedTables(k: Kernel, i: nat, exiting: Option<nat>, spawn: Spawn)
    requires Tables(k) && !k.over && i < |k.sups| && Exits(k.sups[i], exiting)
    ensures Tables(Restarted(k, i, exiting, spawn))
  {
    HandledIs(k.sups[i], exiting, spawn, k.spawned + 1);
    SetTables(k, Restarted(k, i, exiting, spawn), i, Handled(k.sups[i], exiting, spawn, k.spawned + 1));
  }

  lemma SetLostTables(k: Kernel, k': Kernel, j: nat, l: Lost)
    requires Tables(k) && j < |k.lost| && l.sup.binding == k.lost[j].sup.binding
    requires k'.bindings == k.bindings && k'.sups == k.sups && k'.lost == k.lost[j := l] && k.spawned <= k'.spawned
    requires k'.started == k.started
    requires || k'.registry == k.registry[l.sup.binding.contract := l.sup.process]
             || (k'.registry == k.registry && l.sup.process == k.lost[j].sup.process)
    ensures Tables(k')
  {
    BackedStill(k.bindings, k.sups, k.lost, k'.sups, k'.lost);
    forall c | c in k'.registry ensures Bears(k'.sups, k'.lost, c, k'.registry[c]) {
      assert k'.lost[j].sup.binding.contract == l.sup.binding.contract && k'.lost[j].sup.process == l.sup.process;
      if c != l.sup.binding.contract || k'.registry[c] != l.sup.process {
        assert Bears(k.sups, k.lost, c, k.registry[c]);
        LostBears(k.sups, k.lost, j, l, c, k.registry[c]);
      }
    }
  }

  lemma LostBears(sups: seq<Supervisor>, lost: seq<Lost>, j: nat, l: Lost, c: string, p: nat)
    requires Bears(sups, lost, c, p) && j < |lost|
    requires l.sup.binding.contract == lost[j].sup.binding.contract
    requires l.sup.process == lost[j].sup.process || c != l.sup.binding.contract
    ensures Bears(sups, lost[j := l], c, p)
  {
    if x :| 0 <= x < |lost| && lost[x].sup.binding.contract == c && lost[x].sup.process == p {
      assert lost[j := l][x].sup.binding.contract == c && lost[j := l][x].sup.process == p;
    }
  }

  lemma LostRestartedTables(k: Kernel, j: nat, exiting: Option<nat>, spawn: Spawn)
    requires Tables(k) && j < |k.lost| && Exits(k.lost[j].sup, exiting)
    ensures Tables(LostRestarted(k, j, exiting, spawn))
  {
    HandledIs(k.lost[j].sup, exiting, spawn, k.spawned + 1);
    var k' := LostRestarted(k, j, exiting, spawn);
    SetLostTables(k, k', j, k'.lost[j]);
  }

  lemma {:induction false} ReplaceFirstAt(bindings: seq<Binding>, j: nat, b: Binding)
    requires Distinct(bindings) && j < |bindings| && bindings[j].contract == b.contract
    ensures ReplaceFirst(bindings, b) == bindings[j := b]
  {
    if j > 0 {
      ReplaceFirstAt(bindings[1..], j - 1, b);
      assert bindings[j := b] == [bindings[0]] + bindings[1..][j - 1 := b];
    }
  }

  lemma ActiveAfter(bindings: seq<Binding>, j: nat, b: Binding, x: Binding)
    requires Distinct(bindings) && j < |bindings| && bindings[j].contract == b.contract && !b.disabled
    ensures ActiveIn(bindings[j := b], x) <==> x == b || (ActiveIn(bindings, x) && x.contract != b.contract)
  {
    if x in bindings[j := b] && x != b {
      var m :| 0 <= m < |bindings| && bindings[j := b][m] == x;
      assert bindings[m] == x;
    }
    if x in bindings && x.contract != b.contract {
      var m :| 0 <= m < |bindings| && bindings[m] == x;
      assert bindings[j := b][m] == x;
    }
    assert bindings[j := b][j] == b;
  }

  lemma OfActiveAfter(bindings: seq<Binding>, j: nat, b: Binding, x: Binding)
    requires Distinct(bindings) && j < |bindings| && ActiveIn(bindings, bindings[j]) && OfActive(bindings, x)
    requires b.contract == bindings[j].contract && b.manifest == bindings[j].manifest && !b.disabled
    ensures OfActive(bindings[j := b], x)
  {
    var a :| ActiveIn(bindings, a) && a.contract == x.contract && a.manifest == x.manifest;
    ActiveAfter(bindings, j, b, a);
    ActiveAfter(bindings, j, b, b);
    if a.contract == b.contract {
      var n :| 0 <= n < |bindings| && bindings[n] == a;
      assert n == j;
    }
  }

  lemma {:induction false} HeadsRebind(bindings: seq<Binding>, sups: seq<Supervisor>, j: nat, s: Supervisor)
    requires Distinct(bindings) && Heads(bindings, sups) && j < |bindings| && !s.binding.disabled
    requires bindings[j].contract == s.binding.contract && SupervisorOf(sups, s.binding.contract) < |sups|
    ensures var sups' := sups[SupervisorOf(sups, s.binding.contract) := s];
            && Heads(bindings[j := s.binding], sups')
            && (Supervised(bindings, sups) ==> Supervised(bindings[j := s.binding], sups'))
  {
    var i := SupervisorOf(sups, s.binding.contract);
    var sups', bindings' := sups[i := s], bindings[j := s.binding];
    forall x | ActiveIn(bindings', x)
      ensures HasSupervisor(sups, x) ==> HasSupervisor(sups', x)
      ensures SupervisorOf(sups', x.contract) == SupervisorOf(sups, x.contract)
      ensures x == s.binding ==> HasSupervisor(sups', x)
      ensures x != s.binding ==> ActiveIn(bindings, x)
    {
      ActiveAfter(bindings, j, s.binding, x);
      SupervisorSame(sups', sups, x.contract);
    }
  }

  lemma ReboundBindings(k: Kernel, contract: string, config: Config)
    requires Bindings(k) && CanRebind(k, contract) && Distinct(k.bindings)
    ensures Bindings(Rebound(k, contract, config, Up)) && Distinct(Rebound(k, contract, config, Up).bindings)
  {
    var k' := Rebound(k, contract, config, Up);
    var i := SupervisorOf(k.sups, contract);
    var s := k'.sups[i];
    var j := HeadAt(k, contract);
    ReplaceFirstAt(k.bindings, j, s.binding);
    HeadsRebind(k.bindings, k.sups, j, s);
    ActiveAfter(k.bindings, j, s.binding, s.binding);
    assert OfActive(k'.bindings, s.binding);
    ReboundLists(k, contract, config);
    forall n: nat ensures SupActive(k'.bindings, k'.sups, n) {
      assert SupActive(k.bindings, k.sups, n);
      if n < |k.sups| { OfActiveAfter(k.bindings, j, s.binding, k.sups[n].binding); }
    }
    forall n: nat ensures LostActive(k'.bindings, k'.lost, n) {
      assert LostActive(k.bindings, k.lost, n) && SupActive(k.bindings, k.sups, i);
      OfActiveAfter(k.bindings, j, s.binding, k.sups[i].binding);
      if n < |k.lost| { OfActiveAfter(k.bindings, j, s.binding, k.lost[n].sup.binding); }
    }
    SetBinding(k.bindings, j, s.binding);
  }

  lemma {:induction false} ReboundLists(k: Kernel, contract: string, config: Config)
    requires CanRebind(k, contract)
    ensures var k' := Rebound(k, contract, config, Up); var i := SupervisorOf(k.sups, contract);
            && k'.sups == k.sups[i := k'.sups[i]] && |k'.lost| == |k.lost| + 1
            && (forall n :: 0 <= n < |k.lost| ==> k'.lost[n].sup.binding == k.lost[n].sup.binding)
            && k'.lost[|k.lost|].sup.binding == k.sups[i].binding
  {}

  lemma SetBinding(bindings: seq<Binding>, j: nat, b: Binding)
    requires Distinct(bindings) && j < |bindings| && b.contract == bindings[j].contract
    ensures Distinct(bindings[j := b])
  {}

  // The binding that a rebind replaces.
  lemma HeadAt(k: Kernel, contract: string) returns (j: nat)
    requires Bindings(k) && CanRebind(k, contract)
    ensures j < |k.bindings| && k.bindings[j] == k.sups[SupervisorOf(k.sups, contract)].binding
    ensures ActiveIn(k.bindings, k.bindings[j])
  {
    var i := SupervisorOf(k.sups, contract);
    assert SupActive(k.bindings, k.sups, i);
    var a :| ActiveIn(k.bindings, a) && a.contract == contract && a.manifest == k.sups[i].binding.manifest;
    assert HasSupervisor(k.sups, a);
    j :| 0 <= j < |k.bindings| && k.bindings[j] == a;
  }

  lemma ReboundTables(k: Kernel, contract: string, config: Config, spawn: Spawn)
    requires Tables(k) && CanRebind(k, contract) && Distinct(k.bindings)
    ensures Tables(Rebound(k, contract, config, spawn)) && Distinct(Rebound(k, contract, config, spawn).bindings)
  {
    var k' := Rebound(k, contract, config, spawn);
    var i := SupervisorOf(k.sups, contract);
    if spawn.Up? {
      var s := k'.sups[i];
      ReboundBindings(k, contract, config);
      SwapNumbered(k.sups, k.spawned, k'.spawned, i, s);
      BearsBound(k.sups, k.lost, k'.lost, k.registry, i, s);
    } else {
      var b := k.sups[i].binding.(config := k.sups[i].binding.config + config);
      assert SupActive(k.bindings, k.sups, i);
      StrayedTables(k, b, Effective(k, b.manifest), spawn, false);
    }
  }

  // -- whole runs --

  ghost predicate Agree(k: Kernel) {
    && Distinct(k.bindings) && Owned(All(k), k.running, k.spawned)
    && (k.started ==> !k.over)
    && (!k.over ==> Tables(k))
  }

  lemma {:induction false} InitialAgree(k: Kernel)
    requires Initial(k)
    ensures Agree(k)
  {}

  lemma RestrictSame(k: Kernel, withheld: set<string>)
    ensures SameButCaps(k, Restricted(k, withheld))
  {}

  lemma GrantSame(k: Kernel, caller: string, cap: string)
    ensures SameButCaps(k, Granted(k, caller, cap))
  {}

  lemma SameAgree(k: Kernel, k': Kernel)
    requires Agree(k) && SameButCaps(k, k')
    ensures Agree(k')
  {
    if !k.over { SameTables(k, k'); }
    SameOwned(All(k), All(k'), k.running, k.spawned);
  }

  lemma StartAgree(k: Kernel, order: seq<Binding>)
    requires Agree(k) && CanStart(k, order)
    ensures Agree(Begin(k, order))
  {
    BeginTables(k, order);
    BeginOwned(k, order);
    BringUpAllRest(Older(k), order);
  }

  lemma StartFailsAgree(k: Kernel, order: seq<Binding>, n: nat, spawn: Spawn)
    requires Agree(k) && CanStart(k, order) && n < |order|
    ensures Agree(BeginFailed(k, order, n, spawn))
  {
    BeginFailedTables(k, order, n, spawn);
    BeginFailedOwned(k, order, n, spawn);
    BringUpAllRest(k, order[..n]);
  }

  lemma RestartAgree(k: Kernel, i: nat, exiting: Option<nat>, spawn: Spawn)
    requires Agree(k) && i < |k.sups| && Exits(k.sups[i], exiting)
    ensures Agree(Restarted(k, i, exiting, spawn))
  {
    if !k.over { RestartedTables(k, i, exiting, spawn); }
    RestartedOwned(k, i, exiting, spawn);
  }

  lemma RebindAgree(k: Kernel, contract: string, config: Config, spawn: Spawn)
    requires Agree(k)
    ensures Agree(Rebound(k, contract, config, spawn))
  {
    if CanRebind(k, contract) {
      ReboundTables(k, contract, config, spawn);
      ReboundOwned(k, contract, config, spawn);
    }
  }

  lemma LostRestartAgree(k: Kernel, j: nat, exiting: Option<nat>, spawn: Spawn)
    requires Agree(k) && j < |k.lost| && Exits(k.lost[j].sup, exiting)
    ensures Agree(LostRestarted(k, j, exiting, spawn))
  {
    if !k.over { LostRestartedTables(k, j, exiting, spawn); }
    LostRestartedOwned(k, j, exiting, spawn);
  }

  lemma KeepAgree(k: Kernel, st: Step)
    requires Agree(k) && Legal(k, st)
    ensures Agree(Apply(k, st))
  {
    match st {
      case Start(order) => StartAgree(k, order);
      case StartFails(order, n, spawn) => StartFailsAgree(k, order, n, spawn);
      case Restrict(withheld) =>
        RestrictSame(k, withheld);
        SameAgree(k, Restricted(k, withheld));
      case Grant(caller, cap) =>
        GrantSame(k, caller, cap);
        SameAgree(k, Granted(k, caller, cap));
      case Rebind(contract, config, spawn) => RebindAgree(k, contract, config, spawn);
      case Restart(i, exiting, spawn) => RestartAgree(k, i, exiting, spawn);
      case LostRestart(j, exiting, spawn) => LostRestartAgree(k, j, exiting, spawn);
      case Stop => if k.started { StoppedOwned(k); }
    }
  }

  lemma {:induction false} RunAgree(k: Kernel, steps: seq<Step>, k': Kernel)
    requires Agree(k) && Run(k, steps, k')
    ensures Agree(k')
    decreases |steps|
  {
    if steps != [] {
      KeepAgree(k, steps[0]);
      RunAgree(Apply(k, steps[0]), steps[1..], k');
    }
  }

  lemma {:induction false} BornActive(k: Kernel, c: string, p: nat)
    requires Bindings(k) && Bears(k.sups, k.lost, c, p)
    ensures exists b :: ActiveIn(k.bindings, b) && b.contract == c
  {
    if j :| 0 <= j < |k.lost| && k.lost[j].sup.binding.contract == c && k.lost[j].sup.process == p {
      assert LostActive(k.bindings, k.lost, j);
    } else {
      var i :| 0 <= i < |k.sups| && k.sups[i].binding.contract == c && k.sups[i].process == p;
      assert SupActive(k.bindings, k.sups, i);
    }
  }

  lemma {:induction false} BornOnce(sups: seq<Supervisor>, lost: seq<Lost>, c: string, p: nat)
    requires Bears(sups, lost, c, p) && OneEach(sups) && SupervisorOf(sups, c) < |sups|
    ensures p == sups[SupervisorOf(sups, c)].process || TakenOver(lost, c, p)
  {
    if i :| 0 <= i < |sups| && sups[i].binding.contract == c && sups[i].process == p { SupervisorAt(sups, i); }
  }

  lemma {:induction false} ResolvesActive(k: Kernel, c: string)
    requires Tables(k) && k.started
    ensures c in k.registry <==> exists b :: ActiveIn(k.bindings, b) && b.contract == c
    ensures c in k.registry ==> SupervisorOf(k.sups, c) < |k.sups|
    ensures c in k.registry && OneEach(k.sups) ==>
      k.registry[c] == k.sups[SupervisorOf(k.sups, c)].process || TakenOver(k.lost, c, k.registry[c])
  {
    if c in k.registry {
      BornActive(k, c, k.registry[c]);
      var b :| ActiveIn(k.bindings, b) && b.contract == c;
      assert HasSupervisor(k.sups, b);
      if OneEach(k.sups) { BornOnce(k.sups, k.lost, c, k.registry[c]); }
    }
    if b :| ActiveIn(k.bindings, b) && b.contract == c { assert HasSupervisor(k.sups, b); }
  }

  // In every started state of a life: each active contract has a supervisor in the kernel's list, the
  // first of which holds its current binding, and each supervisor is of an active contract; just the
  // active contracts resolve, each to the latest process of a supervisor of it, listed or lost, and,
  // where no contract is listed twice, to that of its own unless a lost one has taken it over; the
  // handles at hand are those of live processes; and every live process is served by one supervisor,
  // listed or lost.
  lemma {:induction false} BindingAgreement(k: Kernel, steps: seq<Step>, k': Kernel)
    requires Initial(k) && Run(k, steps, k') && k'.started
    ensures Supervised(k'.bindings, k'.sups) && Backed(k'.bindings, k'.sups, k'.lost)
    ensures Numbered(k'.sups, k'.spawned) && HandlesLive(k'.sups) && Owned(All(k'), k'.running, k'.spawned)
    ensures forall c :: c in k'.registry <==> exists b :: ActiveIn(k'.bindings, b) && b.contract == c
    ensures forall c :: c in k'.registry ==> Bears(k'.sups, k'.lost, c, k'.registry[c])
    ensures OneEach(k'.sups) ==> forall c :: c in k'.registry ==>
      var i := SupervisorOf(k'.sups, c);
      i < |k'.sups| && (k'.registry[c] == k'.sups[i].process || TakenOver(k'.lost, c, k'.registry[c]))
  {
    RunAgree(k, steps, k');
    forall c
      ensures c in k'.registry <==> exists b :: ActiveIn(k'.bindings, b) && b.contract == c
      ensures c in k'.registry && OneEach(k'.sups) ==>
        var i := SupervisorOf(k'.sups, c);
        i < |k'.sups| && (k'.registry[c] == k'.sups[i].process || TakenOver(k'.lost, c, k'.registry[c]))
    {
      ResolvesActive(k', c);
    }
  }

  // -- configurations --

  // The configurations of the rebinds of `contract` that came up, in order.
  function Rebinds(k: Kernel, steps: seq<Step>, contract: string): seq<Config>
    requires Run(k, steps, RunTo(k, steps))
    decreases |steps|
  {
    if steps == [] then []
    else
      var rest := Rebinds(Apply(k, steps[0]), steps[1..], contract);
      if steps[0].Rebind? && steps[0].contract == contract && steps[0].spawn.Up? && CanRebind(k, contract)
      then [steps[0].config] + rest else rest
  }

  function RunTo(k: Kernel, steps: seq<Step>): Kernel
    decreases |steps|
  {
    if steps == [] then k else if Legal(k, steps[0]) then RunTo(Apply(k, steps[0]), steps[1..]) else k
  }

  function Merge(config: Config, configs: seq<Config>): Config {
    if configs == [] then config else Merge(config, configs[..|configs| - 1]) + configs[|configs| - 1]
  }

  lemma {:induction false} MergeFront(config: Config, first: Config, rest: seq<Config>)
    ensures Merge(config, [first] + rest) == Merge(config + first, rest)
  {
    if rest == [] {
      assert [first] + rest == [first] && [first][..0] == [];
    } else {
      MergeFront(config, first, rest[..|rest| - 1]);
      assert ([first] + rest)[..|rest|] == [first] + rest[..|rest| - 1];
    }
  }

  // The last configuration that sets a key decides its value.
  lemma {:induction false} LastSettingWins(config: Config, configs: seq<Config>, x: string, i: nat)
    requires i < |configs| && x in configs[i] && forall j :: i < j < |configs| ==> x !in configs[j]
    ensures x in Merge(config, configs) && Merge(config, configs)[x] == configs[i][x]
  {
    if i < |configs| - 1 { LastSettingWins(config, configs[..|configs| - 1], x, i); }
  }

  function After(k: Kernel, st: Step, b: Binding): Binding {
    b.(config := if st.Rebind? && st.contract == b.contract && st.spawn.Up? && CanRebind(k, b.contract)
                 then b.config + st.config else b.config)
  }

  lemma BindingStep(k: Kernel, st: Step, b: Binding)
    requires Agree(k) && Legal(k, st) && ActiveIn(k.bindings, b)
    ensures ActiveIn(Apply(k, st).bindings, After(k, st, b))
  {
    if !st.Rebind? {
      SameBindings(k, st);
      assert b.(config := b.config) == b;
    } else if st.spawn.Up? && CanRebind(k, st.contract) {
      RebindStep(k, st.contract, st.config, b);
    } else {
      assert b.(config := b.config) == b;
    }
  }

  lemma RebindStep(k: Kernel, contract: string, config: Config, b: Binding)
    requires Agree(k) && CanRebind(k, contract) && ActiveIn(k.bindings, b)
    ensures ActiveIn(Rebound(k, contract, config, Up).bindings,
                     if contract == b.contract then b.(config := b.config + config) else b)
  {
    var was := k.sups[SupervisorOf(k.sups, contract)].binding;
    var new' := was.(config := was.config + config);
    var j := HeadAt(k, contract);
    ReplaceFirstAt(k.bindings, j, new');
    ActiveAfter(k.bindings, j, new', b);
    ActiveAfter(k.bindings, j, new', new');
    if contract == b.contract { assert HasSupervisor(k.sups, b); }
  }

  // After any run, the binding of an active contract is the one the stack began with, its
  // configuration merged, left to right, with those of the rebinds that came up. A rebind whose new
  // brick did not come up is not among them.
  lemma {:induction false} ConfigMerged(k: Kernel, steps: seq<Step>, k': Kernel, b: Binding)
    requires Agree(k) && Run(k, steps, k') && ActiveIn(k.bindings, b)
    ensures Run(k, steps, RunTo(k, steps))
    ensures ActiveIn(k'.bindings, b.(config := Merge(b.config, Rebinds(k, steps, b.contract))))
    decreases |steps|
  {
    if steps != [] {
      var st := steps[0];
      BindingStep(k, st, b);
      KeepAgree(k, st);
      if st.Rebind? && st.contract == b.contract && st.spawn.Up? && CanRebind(k, b.contract) {
        var b1 := b.(config := b.config + st.config);
        ConfigMerged(Apply(k, st), steps[1..], k', b1);
        MergeFront(b.config, st.config, Rebinds(Apply(k, st), steps[1..], b.contract));
      } else {
        ConfigMerged(Apply(k, st), steps[1..], k', b);
      }
    } else {
      assert b.(config := b.config) == b;
    }
  }
}
