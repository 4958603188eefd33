// Which supervisor serves which live brick process.
module KernelOwners {
  import opened Prelude
  import opened KernelModel

  // Every supervisor, in the kernel's list or not.
  function All(k: Kernel): seq<Supervisor> {
    k.sups + LostSups(k.lost)
  }

  function LostSups(lost: seq<Lost>): seq<Supervisor> {
    seq(|lost|, j requires 0 <= j < |lost| => lost[j].sup)
  }

  ghost predicate Somewhere(all: seq<Supervisor>, p: nat) {
    exists x :: 0 <= x < |all| && p in all[x].live
  }

  // Nobody but `all[x]` knows its live processes.
  ghost predicate Alone(all: seq<Supervisor>, x: nat, p: nat) {
    x < |all| && p in all[x].live ==>
      forall y :: 0 <= y < |all| && y != x ==> p !in all[y].live && p != all[y].process
  }

  // The live processes are those the supervisors serve, each served by one of them.
  ghost predicate Owned(all: seq<Supervisor>, running: set<nat>, spawned: nat) {
    && (forall p :: p in running <==> Somewhere(all, p))
    && (forall x, p :: 0 <= x < |all| && p in all[x].live ==> 1 <= p <= spawned)
    && (forall x: nat, p :: Alone(all, x, p))
    && (forall x :: 0 <= x < |all| ==> all[x].process <= spawned)
  }

  // -- single changes --

  // One supervisor's processes exit, or one comes into being there.
  lemma OwnedSet(all: seq<Supervisor>, running: set<nat>, spawned: nat, x: nat, s: Supervisor,
                 gone: set<nat>, born: set<nat>, spawned': nat)
    requires Owned(all, running, spawned) && x < |all|
    requires gone <= all[x].live && s.live == all[x].live - gone + born
    requires if born == {} then spawned' == spawned else spawned' == spawned + 1 && born == {spawned'}
    requires s.process == all[x].process || s.process in born
    ensures Owned(all[x := s], running - gone + born, spawned')
  {
    var all' := all[x := s];
    forall p ensures p in running - gone + born <==> Somewhere(all', p) {
      assert p in running <==> Somewhere(all, p);
      assert Alone(all, x, p);
      if p in running && p !in gone {
        var y :| 0 <= y < |all| && p in all[y].live;
        assert p in all'[y].live;
      }
      if p in born { assert p in all'[x].live; }
      if y :| 0 <= y < |all'| && p in all'[y].live && p !in born { assert p in all[y].live; }
    }
    forall y: nat, p ensures Alone(all', y, p) {
      assert Alone(all, y, p) && Alone(all, x, p);
    }
  }

  lemma OwnedInsert(a: seq<Supervisor>, b: seq<Supervisor>, running: set<nat>, spawned: nat, s: Supervisor,
                    spawned': nat)
    requires Owned(a + b, running, spawned)
    requires if s.live == {} then spawned' == spawned else spawned' == spawned + 1 && s.live == {spawned'}
    requires s.process == 0 || s.process in s.live
    ensures Owned(a + [s] + b, running + s.live, spawned')
  {
    var all, all' := a + b, a + [s] + b;
    assert forall z :: 0 <= z < |all'| && z != |a| ==> all'[z] == all[if z < |a| then z else z - 1];
    assert all'[|a|] == s;
    forall p ensures p in running + s.live <==> Somewhere(all', p) {
      assert p in running <==> Somewhere(all, p);
      if p in running {
        var y :| 0 <= y < |all| && p in all[y].live;
        assert all'[if y < |a| then y else y + 1] == all[y];
      }
      if p in s.live { assert p in all'[|a|].live; }
      if y :| 0 <= y < |all'| && p in all'[y].live && y != |a| {
        assert all[if y < |a| then y else y - 1] == all'[y];
      }
    }
    forall y: nat, p ensures Alone(all', y, p) {
      if y < |all'| && y != |a| { assert Alone(all, if y < |a| then y else y - 1, p); }
    }
  }

  // The order of the supervisors makes no difference.
  lemma OwnedSwap(all: seq<Supervisor>, running: set<nat>, spawned: nat, x: nat, y: nat)
    requires Owned(all, running, spawned) && x < |all| && y < |all|
    ensures Owned(all[x := all[y]][y := all[x]], running, spawned)
  {
    var all' := all[x := all[y]][y := all[x]];
    forall p ensures p in running <==> Somewhere(all', p) {
      assert p in running <==> Somewhere(all, p);
      if z :| 0 <= z < |all| && p in all[z].live {
        assert p in all'[if z == x then y else if z == y then x else z].live;
      }
      if z :| 0 <= z < |all'| && p in all'[z].live {
        assert p in all[if z == x then y else if z == y then x else z].live;
      }
    }
    forall z: nat, p ensures Alone(all', z, p) {
      assert Alone(all, if z == x then y else if z == y then x else z, p);
    }
  }

  lemma SameOwned(all: seq<Supervisor>, all': seq<Supervisor>, running: set<nat>, spawned: nat)
    requires Owned(all, running, spawned) && |all'| == |all|
    requires forall x :: 0 <= x < |all| ==> all'[x].live == all[x].live && all'[x].process == all[x].process
    ensures Owned(all', running, spawned)
  {
    forall p ensures p in running <==> Somewhere(all', p) {
      assert p in running <==> Somewhere(all, p);
      if x :| 0 <= x < |all| && p in all[x].live { assert p in all'[x].live; }
      if x :| 0 <= x < |all| && p in all'[x].live { assert p in all[x].live; }
    }
    forall x: nat, p ensures Alone(all', x, p) { assert Alone(all, x, p); }
  }

  // -- the steps --

  lemma BringUpOwned(k: Kernel, b: Binding)
    requires Owned(All(k), k.running, k.spawned)
    ensures var k' := BringUp(k, b); Owned(All(k'), k'.running, k'.spawned)
  {
    var k' := BringUp(k, b);
    var s := k'.sups[|k.sups|];
    OwnedInsert(k.sups, LostSups(k.lost), k.running, k.spawned, s, k'.spawned);
    assert LostSups(k'.lost) == LostSups(k.lost);
    assert All(k') == k.sups + [s] + LostSups(k.lost);
  }

  lemma {:induction false} BringUpAllOwned(k: Kernel, order: seq<Binding>)
    requires Owned(All(k), k.running, k.spawned)
    ensures var k' := BringUpAll(k, order); Owned(All(k'), k'.running, k'.spawned)
  {
    if order != [] {
      BringUpAllOwned(k, order[..|order| - 1]);
      BringUpOwned(BringUpAll(k, order[..|order| - 1]), order[|order| - 1]);
    }
  }

  lemma BeginOwned(k: Kernel, order: seq<Binding>)
    requires Owned(All(k), k.running, k.spawned)
    ensures var k' := Begin(k, order); Owned(All(k'), k'.running, k'.spawned)
  {
    SameOwned(All(k), All(Older(k)), k.running, k.spawned);
    BringUpAllOwned(Older(k), order);
    assert All(Begin(k, order)) == All(BringUpAll(Older(k), order));
  }

  lemma StrayedOwned(k: Kernel, b: Binding, caps: set<string>, spawn: Spawn, shares: bool)
    requires Owned(All(k), k.running, k.spawned)
    ensures var k' := Strayed(k, b, caps, spawn, shares); Owned(All(k'), k'.running, k'.spawned)
  {
    if spawn.Died? || spawn.BrokenOff? {
      var k' := Strayed(k, b, caps, spawn, shares);
      var s := k'.lost[|k.lost|].sup;
      assert All(k) + [] == All(k);
      OwnedInsert(All(k), [], k.running, k.spawned, s, k'.spawned);
      assert All(k') == All(k) + [s] + [];
      assert k.running + {} == k.running;
    }
  }

  lemma BeginFailedOwned(k: Kernel, order: seq<Binding>, n: nat, spawn: Spawn)
    requires Owned(All(k), k.running, k.spawned) && n < |order|
    ensures var k' := BeginFailed(k, order, n, spawn); Owned(All(k'), k'.running, k'.spawned)
  {
    var k1, b := BringUpAll(k, order[..n]), order[n];
    BringUpAllOwned(k, order[..n]);
    SameOwned(All(k1), All(Listed(k1, b)), k1.running, k1.spawned);
    StrayedOwned(Listed(k1, b), b, Effective(k1, b.manifest), spawn, true);
  }

  lemma HandledIs(s: Supervisor, exiting: Option<nat>, spawn: Spawn, p: nat)
    requires Exits(s, exiting)
    ensures var s' := Handled(s, exiting, spawn, p);
            && s'.binding == s.binding && s'.caps == s.caps
            && s'.process == (if spawn.Up? then p else s.process)
            && (s'.up <==> spawn.Up?) && (s'.up ==> p in s'.live)
            && s'.live == s.live - Gone(exiting) + if Leaves(spawn) then {p} else {}
  {}

  lemma RestartedOwned(k: Kernel, i: nat, exiting: Option<nat>, spawn: Spawn)
    requires Owned(All(k), k.running, k.spawned) && i < |k.sups| && Exits(k.sups[i], exiting)
    ensures var k' := Restarted(k, i, exiting, spawn); Owned(All(k'), k'.running, k'.spawned)
  {
    var k' := Restarted(k, i, exiting, spawn);
    var born := if Leaves(spawn) && !k.over then {k.spawned + 1} else {};
    assert All(k)[i] == k.sups[i];
    OwnedSet(All(k), k.running, k.spawned, i, k'.sups[i], Gone(exiting), born, k'.spawned);
    assert All(k') == All(k)[i := k'.sups[i]];
    assert k.running - Gone(exiting) + {} == k.running - Gone(exiting);
  }

  lemma LostRestartedOwned(k: Kernel, j: nat, exiting: Option<nat>, spawn: Spawn)
    requires Owned(All(k), k.running, k.spawned) && j < |k.lost| && Exits(k.lost[j].sup, exiting)
    ensures var k' := LostRestarted(k, j, exiting, spawn); Owned(All(k'), k'.running, k'.spawned)
  {
    var k' := LostRestarted(k, j, exiting, spawn);
    var x := |k.sups| + j;
    var born := if Leaves(spawn) && !k.lost[j].stopped then {k.spawned + 1} else {};
    assert All(k)[x] == k.lost[j].sup;
    OwnedSet(All(k), k.running, k.spawned, x, k'.lost[j].sup, Gone(exiting), born, k'.spawned);
    assert All(k') == All(k)[x := k'.lost[j].sup];
    assert k.running - Gone(exiting) + {} == k.running - Gone(exiting);
  }

  // The latest process of a supervisor is alive only there.
  lemma LatestAlone(k: Kernel, i: nat)
    requires Owned(All(k), k.running, k.spawned) && i < |k.sups|
    ensures k.sups[i].process in k.running ==> k.sups[i].process in k.sups[i].live
    ensures k.spawned + 1 !in k.running
  {
    var all, p := All(k), k.sups[i].process;
    assert all[i] == k.sups[i];
    if p in k.running {
      assert Somewhere(all, p);
      var x :| 0 <= x < |all| && p in all[x].live;
      assert Alone(all, x, p);
    }
    var next: nat := k.spawned + 1;
    assert next in k.running <==> Somewhere(all, next);
  }

  // A rebind that comes up: the old supervisor's latest process ends, and the rest of it is lost.
  lemma SwappedOwned(k: Kernel, i: nat, s: Supervisor)
    requires Owned(All(k), k.running, k.spawned) && i < |k.sups|
    requires s.process == k.spawned + 1 && s.live == {s.process}
    ensures var was := k.sups[i].(live := k.sups[i].live - {k.sups[i].process});
            Owned(k.sups[i := s] + (LostSups(k.lost) + [was]), k.running + {s.process} - {k.sups[i].process}, s.process)
  {
    var was := k.sups[i].(live := k.sups[i].live - {k.sups[i].process});
    var all, n := All(k), |All(k)|;
    var gone := k.sups[i].live * {k.sups[i].process};
    OwnedSet(all, k.running, k.spawned, i, was, gone, {}, k.spawned);
    assert all[i := was] + [] == all[i := was] && all[i := was] + [s] + [] == all[i := was] + [s];
    OwnedInsert(all[i := was], [], k.running - gone + {}, k.spawned, s, s.process);
    OwnedSwap(all[i := was] + [s], k.running - gone + {} + s.live, s.process, i, n);
    var all1 := all[i := was] + [s];
    assert all1[i := all1[n]][n := all1[i]] == k.sups[i := s] + (LostSups(k.lost) + [was]);
    LatestAlone(k, i);
    assert k.running - gone + {} + s.live == k.running + {s.process} - {k.sups[i].process};
  }

  lemma ReboundOwned(k: Kernel, contract: string, config: Config, spawn: Spawn)
    requires Owned(All(k), k.running, k.spawned) && CanRebind(k, contract)
    ensures var k' := Rebound(k, contract, config, spawn); Owned(All(k'), k'.running, k'.spawned)
  {
    var k' := Rebound(k, contract, config, spawn);
    var i := SupervisorOf(k.sups, contract);
    if spawn.Up? {
      SwappedOwned(k, i, k'.sups[i]);
      assert LostSups(k'.lost) == LostSups(k.lost) + [k'.lost[|k.lost|].sup];
    } else {
      var b := k.sups[i].binding.(config := k.sups[i].binding.config + config);
      StrayedOwned(k, b, Effective(k, b.manifest), spawn, false);
    }
  }

  lemma StoppedOwned(k: Kernel)
    requires Owned(All(k), k.running, k.spawned) && k.started
    ensures var k' := Stopped(k); Owned(All(k'), k'.running, k'.spawned)
  {
    var k', all, all' := Stopped(k), All(k), All(Stopped(k));
    assert forall x :: 0 <= x < |all| ==>
      all'[x].process == all[x].process && all'[x].live == all[x].live - if x < |k.sups| then {all[x].process} else {};
    forall p ensures p in k'.running <==> Somewhere(all', p) {
      assert p in k.running <==> Somewhere(all, p);
      if p in k'.running {
        var x :| 0 <= x < |all| && p in all[x].live;
        assert x < |k.sups| ==> k.sups[x] in k.sups;
        assert p in all'[x].live;
      }
      if x :| 0 <= x < |all'| && p in all'[x].live {
        assert p in all[x].live && Alone(all, x, p);
        forall s | s in k.sups ensures s.process != p {
          var y :| 0 <= y < |k.sups| && k.sups[y] == s;
          assert all[y] == s;
        }
      }
    }
    forall x: nat, p ensures Alone(all', x, p) { assert Alone(all, x, p); }
  }
}
