// A supervisor's restart limiter and backoff.
module Supervision {
  import opened Prelude

  datatype RestartPolicy = RestartPolicy(maxRestarts: int, backoffBase: real, backoffCap: real, windowSeconds: real)

  function Pow2(n: nat): real { if n == 0 then 1.0 else 2.0 * Pow2(n - 1) }

  function Lower(x: real, y: real): real { if x <= y then x else y }

  function Doubled(base: real, n: nat): real { base * Pow2(n) }

  function BackoffFor(policy: RestartPolicy, attempt: int): (delay: real)
    ensures delay <= policy.backoffCap
  {
    Lower(policy.backoffCap, Doubled(policy.backoffBase, if attempt < 1 then 0 else attempt - 1))
  }

  lemma DoubledNext(base: real, n: nat)
    ensures Doubled(base, 0) == base && Doubled(base, n + 1) == 2.0 * Doubled(base, n)
  {
    assert base * (2.0 * Pow2(n)) == 2.0 * (base * Pow2(n));
  }

  // The first delay is the base, and each next one is twice the last, as far as the cap goes; a negative
  // cap is the delay at once, for a base that is not negative.
  lemma BackoffDoubles(policy: RestartPolicy, attempt: nat)
    requires attempt >= 1
    ensures BackoffFor(policy, 1) == Lower(policy.backoffCap, policy.backoffBase)
    ensures policy.backoffCap >= 0.0 ==>
      BackoffFor(policy, attempt + 1) == Lower(policy.backoffCap, 2.0 * BackoffFor(policy, attempt))
    ensures policy.backoffCap < 0.0 <= policy.backoffBase ==> BackoffFor(policy, attempt) == policy.backoffCap
    ensures forall early: int :: early < 1 ==> BackoffFor(policy, early) == BackoffFor(policy, 1)
  {
    DoubledNext(policy.backoffBase, attempt - 1);
    if policy.backoffBase >= 0.0 { DoubledMonotone(policy.backoffBase, 0, attempt - 1); }
  }

  // Delays never shrink from one attempt to a later one.
  ghost predicate Patient(policy: RestartPolicy) {
    forall a: int, b: int :: a <= b ==> BackoffFor(policy, a) <= BackoffFor(policy, b)
  }

  lemma {:induction false} DoubledMonotone(base: real, m: nat, n: nat)
    requires base >= 0.0 && m <= n
    ensures 0.0 <= base <= Doubled(base, m) <= Doubled(base, n)
    decreases n
  {
    if m < n {
      DoubledMonotone(base, m, n - 1);
      DoubledNext(base, n - 1);
    } else if m > 0 {
      DoubledMonotone(base, m - 1, m - 1);
      DoubledNext(base, m - 1);
    } else {
      DoubledNext(base, 0);
    }
  }

  lemma BackoffGrows(policy: RestartPolicy, a: int, b: int)
    requires policy.backoffBase >= 0.0 && a <= b
    ensures BackoffFor(policy, a) <= BackoffFor(policy, b)
  {
    DoubledMonotone(policy.backoffBase, if a < 1 then 0 else a - 1, if b < 1 then 0 else b - 1);
  }

  // A negative base falls below any cap in the end.
  lemma {:induction false} Falls(base: real, n: nat)
    requires base < 0.0
    ensures Doubled(base, n) <= base < 0.0 && Doubled(base, n) <= base * (n as real)
  {
    DoubledNext(base, 0);
    if n > 0 {
      Falls(base, n - 1);
      DoubledNext(base, n - 1);
      FallsNext(base, n, Doubled(base, n - 1));
    }
  }

  lemma FallsNext(base: real, n: nat, d: real)
    requires base < 0.0 && n > 0 && d < 0.0 && d <= base && d <= base * ((n - 1) as real)
    ensures 2.0 * d <= base * (n as real)
  {
    assert base * (n as real) == base * ((n - 1) as real) + base;
  }

  lemma ReachesCap(base: real, cap: real) returns (n: nat)
    requires base < 0.0
    ensures Doubled(base, n) <= cap
  {
    if cap >= 0.0 {
      n := 0;
      Falls(base, 0);
    } else {
      var need := cap / base;
      assert base * need == cap;
      n := need.Floor + 1;
      Falls(base, n);
      Steeper(base, need, n as real);
    }
  }

  lemma Steeper(base: real, x: real, y: real)
    requires base < 0.0 && x <= y
    ensures base * y <= base * x
  {
    assert base * (y - x) <= 0.0;
  }

  lemma BackoffShrinks(policy: RestartPolicy) returns (a: int)
    requires policy.backoffBase < 0.0
    ensures BackoffFor(policy, a + 1) < BackoffFor(policy, a)
  {
    var n := ReachesCap(policy.backoffBase, policy.backoffCap);
    Falls(policy.backoffBase, n);
    DoubledNext(policy.backoffBase, n);
    a := n + 1;
  }

  // That holds just for a base that is not negative.
  lemma BackoffPatient(policy: RestartPolicy)
    ensures Patient(policy) <==> policy.backoffBase >= 0.0
  {
    if policy.backoffBase >= 0.0 {
      forall a: int, b: int | a <= b ensures BackoffFor(policy, a) <= BackoffFor(policy, b) {
        BackoffGrows(policy, a, b);
      }
    } else {
      var a := BackoffShrinks(policy);
      assert a <= a + 1;
    }
  }

  // -- the limiter --

  datatype Decision = Exhausted(restarts: nat) | Restarting(attempt: nat, delay: real)

  // The entries still in the window.
  function Within(times: seq<real>, now: real, window: real): seq<real> {
    if times == [] then []
    else (if now - times[0] < window then [times[0]] else []) + Within(times[1..], now, window)
  }

  // What `_handle_crash` decides at `now`, and the list it keeps.
  function Decide(policy: RestartPolicy, times: seq<real>, now: real): (Decision, seq<real>) {
    var kept := Within(times, now, policy.windowSeconds);
    if |kept| >= policy.maxRestarts then (Exhausted(|kept|), kept)
    else (Restarting(|kept| + 1, BackoffFor(policy, |kept| + 1)), kept + [now])
  }

  // The list kept after a run of crashes at these times.
  function Times(policy: RestartPolicy, crashes: seq<real>): seq<real> {
    if crashes == [] then []
    else Decide(policy, Times(policy, crashes[..|crashes| - 1]), crashes[|crashes| - 1]).1
  }

  // The decision at the last crash of the run.
  function Last(policy: RestartPolicy, crashes: seq<real>): Decision
    requires crashes != []
  {
    Decide(policy, Times(policy, crashes[..|crashes| - 1]), crashes[|crashes| - 1]).0
  }

  // When restarts were decided, over the whole run.
  function Restarts(policy: RestartPolicy, crashes: seq<real>): seq<real> {
    if crashes == [] then []
    else
      Restarts(policy, crashes[..|crashes| - 1]) +
      if Last(policy, crashes).Restarting? then [crashes[|crashes| - 1]] else []
  }

  predicate Ordered(s: seq<real>) {
    forall i, j :: 0 <= i < j < |s| ==> s[i] <= s[j]
  }

  function Kept(t: real, now: real, window: real): seq<real> {
    if now - t < window then [t] else []
  }

  lemma {:induction false} WithinFirst(times: seq<real>, now: real, window: real)
    requires times != []
    ensures Within(times, now, window) == Kept(times[0], now, window) + Within(times[1..], now, window)
  {}

  lemma {:induction false} WithinConcat(a: seq<real>, b: seq<real>, now: real, window: real)
    ensures Within(a + b, now, window) == Within(a, now, window) + Within(b, now, window)
  {
    if a == [] {
      assert a + b == b;
    } else {
      calc {
        Within(a + b, now, window);
      == { WithinFirst(a + b, now, window); assert (a + b)[0] == a[0] && (a + b)[1..] == a[1..] + b; }
        Kept(a[0], now, window) + Within(a[1..] + b, now, window);
      == { WithinConcat(a[1..], b, now, window); }
        Kept(a[0], now, window) + (Within(a[1..], now, window) + Within(b, now, window));
      == { WithinFirst(a, now, window); }
        Within(a, now, window) + Within(b, now, window);
      }
    }
  }

  // What has left the window stays out.
  lemma {:induction false} WithinTwice(times: seq<real>, now: real, later: real, window: real)
    requires now <= later
    ensures Within(Within(times, now, window), later, window) == Within(times, later, window)
  {
    if times != [] {
      WithinTwice(times[1..], now, later, window);
      var head := if now - times[0] < window then [times[0]] else [];
      WithinConcat(head, Within(times[1..], now, window), later, window);
    }
  }

  // In a list in order the entries in the window are the last ones.
  lemma {:induction false} WithinSuffix(times: seq<real>, now: real, window: real, n: nat)
    requires Ordered(times) && 1 <= n
    ensures |Within(times, now, window)| >= n <==> n <= |times| && now - times[|times| - n] < window
    ensures |Within(times, now, window)| <= |times|
    ensures times != [] && now - times[0] < window ==> |Within(times, now, window)| == |times|
  {
    if times != [] {
      WithinSuffix(times[1..], now, window, n);
      if |times| > 1 && now - times[0] < window { assert now - times[1..][0] < window; }
    }
  }

  lemma {:induction false} RememberedStep(
    times: seq<real>, all: seq<real>, last: real, now: real, w: real, more: seq<real>)
    requires last <= now && Within(times, now, w) == Within(all, now, w)
    ensures Within(Within(times, last, w) + more, now, w) == Within(all + more, now, w)
  {
    WithinTwice(times, last, now, w);
    WithinConcat(Within(times, last, w), more, now, w);
    WithinConcat(all, more, now, w);
  }

  // The pruned list shows every later window just as the full history does.
  lemma {:induction false} Remembered(policy: RestartPolicy, crashes: seq<real>, now: real)
    requires Ordered(crashes) && (crashes != [] ==> crashes[|crashes| - 1] <= now)
    ensures Within(Times(policy, crashes), now, policy.windowSeconds)
         == Within(Restarts(policy, crashes), now, policy.windowSeconds)
  {
    if crashes != [] {
      var before, last, w := crashes[..|crashes| - 1], crashes[|crashes| - 1], policy.windowSeconds;
      Remembered(policy, before, now);
      var times, all := Times(policy, before), Restarts(policy, before);
      var more := if Last(policy, crashes).Restarting? then [last] else [];
      RememberedStep(times, all, last, now, w, more);
      assert Within(times, last, w) + [] == Within(times, last, w);
      assert Times(policy, crashes) == Within(times, last, w) + more;
    }
  }

  lemma {:induction false} RestartsOrdered(policy: RestartPolicy, crashes: seq<real>)
    requires Ordered(crashes)
    ensures Ordered(Restarts(policy, crashes))
    ensures forall i :: 0 <= i < |Restarts(policy, crashes)| ==>
      crashes != [] && Restarts(policy, crashes)[i] <= crashes[|crashes| - 1]
  {
    if crashes != [] {
      var before := crashes[..|crashes| - 1];
      RestartsOrdered(policy, before);
      assert before != [] ==> before[|before| - 1] == crashes[|before| - 1];
    }
  }

  // What is decided from a list that shows the window like the history does.
  lemma {:induction false} DecideExact(policy: RestartPolicy, times: seq<real>, all: seq<real>, now: real)
    requires Within(times, now, policy.windowSeconds) == Within(all, now, policy.windowSeconds) && Ordered(all)
    ensures var d, max := Decide(policy, times, now).0, policy.maxRestarts;
            && (d.Restarting? <==> max >= 1 && (|all| < max || now - all[|all| - max] >= policy.windowSeconds))
            && (d.Restarting? ==>
                  1 <= d.attempt <= max && d.attempt == 1 + |Within(all, now, policy.windowSeconds)|)
  {
    if policy.maxRestarts >= 1 { WithinSuffix(all, now, policy.windowSeconds, policy.maxRestarts); }
  }

  lemma DecideDelay(policy: RestartPolicy, times: seq<real>, now: real)
    ensures var d := Decide(policy, times, now).0;
            d.Restarting? ==> d.delay == BackoffFor(policy, d.attempt) && d.delay <= policy.backoffCap
  {}

  // The decision is the sliding window's over the whole history: restart unless the
  // `maxRestarts`-th restart from the end is still in the window. It carries an attempt number of
  // 1..maxRestarts.
  lemma {:induction false} DecisionExact(policy: RestartPolicy, crashes: seq<real>)
    requires Ordered(crashes) && crashes != []
    ensures var now := crashes[|crashes| - 1];
            var all := Restarts(policy, crashes[..|crashes| - 1]);
            var d, max := Last(policy, crashes), policy.maxRestarts;
            && (d.Restarting? <==> max >= 1 && (|all| < max || now - all[|all| - max] >= policy.windowSeconds))
            && (d.Restarting? ==>
                  1 <= d.attempt <= max && d.attempt == 1 + |Within(all, now, policy.windowSeconds)|
                  && d.delay == BackoffFor(policy, d.attempt) && d.delay <= policy.backoffCap)
  {
    var before, now := crashes[..|crashes| - 1], crashes[|crashes| - 1];
    Remembered(policy, before, now);
    RestartsOrdered(policy, before);
    DecideExact(policy, Times(policy, before), Restarts(policy, before), now);
    DecideDelay(policy, Times(policy, before), now);
  }

  // Any `maxRestarts + 1` consecutive restarts span at least the window.
  lemma {:induction false} RestartsSpaced(policy: RestartPolicy, crashes: seq<real>, i: nat, j: nat)
    requires Ordered(crashes)
    requires policy.maxRestarts >= 0 && j == i + policy.maxRestarts && j < |Restarts(policy, crashes)|
    ensures Restarts(policy, crashes)[j] - Restarts(policy, crashes)[i] >= policy.windowSeconds
  {
    var before := crashes[..|crashes| - 1];
    DecisionExact(policy, crashes);
    if j < |Restarts(policy, before)| {
      RestartsSpaced(policy, before, i, j);
      assert Restarts(policy, crashes)[j] == Restarts(policy, before)[j];
    }
  }

  // With no restart allowed there is none.
  lemma {:induction false} NoneAllowed(policy: RestartPolicy, crashes: seq<real>)
    requires Ordered(crashes) && policy.maxRestarts <= 0
    ensures Restarts(policy, crashes) == []
  {
    if crashes != [] {
      NoneAllowed(policy, crashes[..|crashes| - 1]);
      DecisionExact(policy, crashes);
    }
  }

  // -- the object --

  // Each loop over the list keeps what is still in the window.
  method Prune(times: seq<real>, now: real, window: real) returns (kept: seq<real>)
    ensures kept == Within(times, now, window)
  {
    kept := [];
    for i := 0 to |times|
      invariant kept == Within(times[..i], now, window)
    {
      assert times[..i + 1] == times[..i] + [times[i]];
      WithinConcat(times[..i], [times[i]], now, window);
      if now - times[i] < window { kept := kept + [times[i]]; }
    }
    assert times[..|times|] == times;
  }

  class Supervisor {
    const policy: RestartPolicy
    var handle: Option<nat>
    var process: Option<nat>
    var restartTimes: seq<real>
    var stopped: bool
    ghost var crashes: seq<real>      // when crashes were handled

    ghost predicate Valid()
      reads this
    {
      Ordered(crashes) && restartTimes == Times(policy, crashes)
    }

    constructor (policy: RestartPolicy)
      ensures Valid() && this.policy == policy && crashes == [] && !stopped && handle.None? && process.None?
    {
      this.policy := policy;
      handle, process, restartTimes, stopped := None, None, [], false;
      crashes := [];
    }

    // `start`; `up` is the process that came up, if any.
    method Start(up: Option<nat>)
      requires Valid()
      modifies this`handle, this`process, this`stopped
      ensures Valid() && !stopped
      ensures handle == (if up.Some? then up else old(handle)) && process == (if up.Some? then up else old(process))
    {
      stopped := false;
      if up.Some? { handle, process := up, up; }
    }

    // `_handle_crash` up to its sleep; None when it returns at once because of a stop.
    method HandleCrash(now: real) returns (d: Option<Decision>)
      requires Valid() && forall i :: 0 <= i < |crashes| ==> crashes[i] <= now
      modifies this`handle, this`restartTimes, this`crashes
      ensures Valid()
      ensures stopped ==> d.None? && crashes == old(crashes) && handle == old(handle)
      ensures !stopped ==> crashes == old(crashes) + [now] && handle.None? && d == Some(Last(policy, crashes))
    {
      if stopped { return None; }
      handle := None;
      restartTimes := Prune(restartTimes, now, policy.windowSeconds);
      assert (crashes + [now])[..|crashes|] == crashes;
      crashes := crashes + [now];
      if |restartTimes| >= policy.maxRestarts { return Some(Exhausted(|restartTimes|)); }
      var attempt := |restartTimes| + 1;
      restartTimes := restartTimes + [now];
      d := Some(Restarting(attempt, BackoffFor(policy, attempt)));
    }

    // The rest of it, after the sleep: the handle for the rebind hook, if there is one.
    method Respawn(up: Option<nat>) returns (rebind: Option<nat>)
      requires Valid()
      modifies this`handle, this`process
      ensures Valid()
      ensures rebind == if stopped then None else up
      ensures rebind.None? ==> handle == old(handle) && process == old(process)
      ensures rebind.Some? ==> handle == process == rebind
    {
      if stopped || up.None? { return None; }
      handle, process := up, up;
      rebind := handle;
    }

    // `stop`: the process to shut down. A crash handled later, or a sleeping restart, brings nothing up.
    method Stop() returns (p: Option<nat>)
      requires Valid()
      modifies this`stopped
      ensures Valid() && stopped && p == process
    {
      stopped := true;
      p := process;
    }
  }
}
