// The permutations of a pool in the order `itertools.permutations` yields them.
module Permuting {
  function Without(pool: seq<nat>, i: nat): seq<nat>
    requires i < |pool|
  {
    pool[..i] + pool[i + 1..]
  }

  function Led(x: nat, ps: seq<seq<nat>>): (r: seq<seq<nat>>)
    ensures |r| == |ps| && forall j :: 0 <= j < |ps| ==> r[j] == [x] + ps[j]
  {
    seq(|ps|, j requires 0 <= j < |ps| => [x] + ps[j])
  }

  function Permutations(pool: seq<nat>): seq<seq<nat>>
    decreases |pool|, |pool| + 1
  {
    if pool == [] then [[]] else Beginning(pool, |pool|)
  }

  // Those that begin with one of the first k.
  function Beginning(pool: seq<nat>, k: nat): seq<seq<nat>>
    requires k <= |pool|
    decreases |pool|, k
  {
    if k == 0 then []
    else Beginning(pool, k - 1) + Led(pool[k - 1], Permutations(Without(pool, k - 1)))
  }

  // -- which they are --

  lemma LedHas(x: nat, ps: seq<seq<nat>>, p: seq<nat>)
    ensures p in Led(x, ps) <==> p != [] && p[0] == x && p[1..] in ps
  {
    var led := Led(x, ps);
    if p in led {
      var j :| 0 <= j < |ps| && led[j] == p;
      assert p[1..] == ps[j];
    }
    if p != [] && p[0] == x && p[1..] in ps {
      var j :| 0 <= j < |ps| && ps[j] == p[1..];
      assert led[j] == p;
    }
  }

  predicate Leads(pool: seq<nat>, i: nat, p: seq<nat>) {
    i < |pool| && p != [] && p[0] == pool[i] && p[1..] in Permutations(Without(pool, i))
  }

  lemma {:induction false} BeginningExact(pool: seq<nat>, k: nat, p: seq<nat>)
    requires k <= |pool|
    ensures p in Beginning(pool, k) <==> exists i :: 0 <= i < k && Leads(pool, i, p)
  {
    if k > 0 {
      BeginningExact(pool, k - 1, p);
      LedHas(pool[k - 1], Permutations(Without(pool, k - 1)), p);
      assert p in Beginning(pool, k) <==> p in Beginning(pool, k - 1) || Leads(pool, k - 1, p);
    }
  }

  lemma WithoutBag(pool: seq<nat>, i: nat)
    requires i < |pool|
    ensures multiset(pool) == multiset{pool[i]} + multiset(Without(pool, i))
  {
    assert pool == pool[..i] + ([pool[i]] + pool[i + 1..]);
  }

  lemma Cancel(x: nat, a: multiset<nat>, b: multiset<nat>)
    ensures multiset{x} + a == multiset{x} + b <==> a == b
  {
    assert multiset{x} + a - multiset{x} == a && multiset{x} + b - multiset{x} == b;
  }

  lemma HeadBag(p: seq<nat>)
    requires p != []
    ensures multiset(p) == multiset{p[0]} + multiset(p[1..])
  {
    assert p == [p[0]] + p[1..];
  }

  // They are just the sequences with the pool's elements.
  lemma {:induction false} PermutationsExact(pool: seq<nat>, p: seq<nat>)
    ensures p in Permutations(pool) <==> multiset(p) == multiset(pool)
    decreases |pool|
  {
    if pool == [] {
      assert p in Permutations(pool) <==> p == [];
      if p != [] { HeadBag(p); }
    } else {
      BeginningExact(pool, |pool|, p);
      if p == [] {
        HeadBag(pool);
      } else {
        HeadBag(p);
        forall i | 0 <= i < |pool| && p[0] == pool[i]
          ensures Leads(pool, i, p) <==> multiset(p) == multiset(pool)
        {
          WithoutBag(pool, i);
          PermutationsExact(Without(pool, i), p[1..]);
          Cancel(p[0], multiset(p[1..]), multiset(Without(pool, i)));
        }
        if multiset(p) == multiset(pool) {
          assert p[0] in multiset(pool);
          var i :| 0 <= i < |pool| && pool[i] == p[0];
          assert Leads(pool, i, p);
        }
      }
    }
  }

  // -- in which order --

  predicate Increasing(pool: seq<nat>) {
    forall i, j :: 0 <= i < j < |pool| ==> pool[i] < pool[j]
  }

  predicate Differ(a: seq<nat>, b: seq<nat>, k: nat) {
    k < |a| && k < |b| && a[..k] == b[..k] && a[k] < b[k]
  }

  // Before it in the order of tuples.
  ghost predicate Precedes(a: seq<nat>, b: seq<nat>) {
    exists k: nat :: Differ(a, b, k)
  }

  lemma PrecedesLed(x: nat, a: seq<nat>, b: seq<nat>)
    requires Precedes(a, b)
    ensures Precedes([x] + a, [x] + b)
  {
    var k: nat :| Differ(a, b, k);
    assert ([x] + a)[..k + 1] == [x] + a[..k] && ([x] + b)[..k + 1] == [x] + b[..k];
    assert Differ([x] + a, [x] + b, k + 1);
  }

  lemma {:induction false} WithoutIncreasing(pool: seq<nat>, i: nat)
    requires i < |pool| && Increasing(pool)
    ensures Increasing(Without(pool, i))
  {}

  lemma {:induction false} BeginningOrdered(pool: seq<nat>, k: nat, i: nat, j: nat)
    requires Increasing(pool) && k <= |pool| && i < j < |Beginning(pool, k)|
    ensures Precedes(Beginning(pool, k)[i], Beginning(pool, k)[j])
    decreases |pool|, k
  {
    var before, x, rest := Beginning(pool, k - 1), pool[k - 1], Without(pool, k - 1);
    var n, ps := |before|, Permutations(rest);
    assert Beginning(pool, k) == before + Led(x, ps);
    if j < n {
      BeginningOrdered(pool, k - 1, i, j);
    } else if i >= n {
      WithoutIncreasing(pool, k - 1);
      PermutationsOrdered(rest, i - n, j - n);
      PrecedesLed(x, ps[i - n], ps[j - n]);
    } else {
      BeginningExact(pool, k - 1, before[i]);
      assert before[i] in before;
      assert Differ(before[i], [x] + ps[j - n], 0);
    }
  }

  lemma {:induction false} PermutationsOrdered(pool: seq<nat>, i: nat, j: nat)
    requires Increasing(pool) && i < j < |Permutations(pool)|
    ensures Precedes(Permutations(pool)[i], Permutations(pool)[j])
    decreases |pool|, |pool| + 1
  {
    BeginningOrdered(pool, |pool|, i, j);
  }

  // -- how many --

  function Factorial(n: nat): nat { if n == 0 then 1 else n * Factorial(n - 1) }

  lemma Distribute(k: nat, f: nat)
    requires k > 0
    ensures (k - 1) * f + f == k * f
  {}

  lemma {:induction false} BeginningCount(pool: seq<nat>, k: nat)
    requires k <= |pool| && pool != []
    ensures |Beginning(pool, k)| == k * Factorial(|pool| - 1)
    decreases |pool|, k
  {
    if k > 0 {
      BeginningCount(pool, k - 1);
      PermutationsCount(Without(pool, k - 1));
      Distribute(k, Factorial(|pool| - 1));
    }
  }

  lemma {:induction false} PermutationsCount(pool: seq<nat>)
    ensures |Permutations(pool)| == Factorial(|pool|)
    decreases |pool|, |pool| + 1
  {
    if pool != [] { BeginningCount(pool, |pool|); }
  }

  // -- the first few --

  function Range(n: nat): (r: seq<nat>)
    ensures |r| == n && Increasing(r) && forall i :: 0 <= i < n ==> r[i] == i
  {
    seq(n, i => i)
  }

  // `list(islice(permutations(range(n)), m))`.
  function Orderings(n: nat, m: nat): (r: seq<seq<nat>>) {
    var all := Permutations(Range(n));
    if m < |all| then all[..m] else all
  }

  lemma {:induction false} BeginningFirst(pool: seq<nat>, k: nat)
    requires 1 <= k <= |pool|
    ensures |Beginning(pool, k)| > 0 && Beginning(pool, k)[0] == pool
    decreases |pool|, k
  {
    if k > 1 {
      BeginningFirst(pool, k - 1);
    } else {
      var rest := Without(pool, 0);
      if rest != [] { BeginningFirst(rest, |rest|); }
      assert Permutations(rest)[0] == rest;
      assert Beginning(pool, 1) == [] + Led(pool[0], Permutations(rest));
      assert pool == [pool[0]] + rest;
    }
  }

  // The first ordering is the one there was.
  lemma OrderingsFirst(n: nat, m: nat)
    requires n >= 1 && m >= 1
    ensures Orderings(n, m) != [] && Orderings(n, m)[0] == Range(n)
  {
    BeginningFirst(Range(n), n);
  }

  predicate Permutes(p: seq<nat>, n: nat) {
    multiset(p) == multiset(Range(n))
  }

  // As many permutations as are wanted and there are, in order, and every other one comes later.
  lemma {:induction false} OrderingsExact(n: nat, m: nat)
    ensures var r := Orderings(n, m);
            && |r| == (if m < Factorial(n) then m else Factorial(n))
            && (forall i :: 0 <= i < |r| ==> Permutes(r[i], n))
            && (forall i, j :: 0 <= i < j < |r| ==> Precedes(r[i], r[j]))
            && (forall p, i :: Permutes(p, n) && p !in r && 0 <= i < |r| ==> Precedes(r[i], p))
  {
    var all, r := Permutations(Range(n)), Orderings(n, m);
    PermutationsCount(Range(n));
    forall i | 0 <= i < |r| ensures Permutes(r[i], n) {
      assert r[i] == all[i] && all[i] in all;
      PermutationsExact(Range(n), r[i]);
    }
    forall i, j | 0 <= i < j < |all| ensures Precedes(all[i], all[j]) {
      PermutationsOrdered(Range(n), i, j);
    }
    assert forall i :: 0 <= i < |r| ==> all[i] == r[i] && r[i] in r;
    forall p, i | Permutes(p, n) && p !in r && 0 <= i < |r| ensures Precedes(r[i], p) {
      PermutationsExact(Range(n), p);
      var j :| 0 <= j < |all| && all[j] == p;
      assert Precedes(all[i], all[j]);
    }
  }

  predicate Below(places: seq<nat>, n: nat) {
    forall i :: 0 <= i < |places| ==> places[i] < n
  }

  lemma PermutesBelow(p: seq<nat>, n: nat)
    requires Permutes(p, n)
    ensures |p| == n && Below(p, n)
  {
    assert |p| == |multiset(p)| && n == |multiset(Range(n))|;
    forall i | 0 <= i < |p| ensures p[i] < n {
      assert p[i] in multiset(p);
      assert p[i] in Range(n);
    }
  }

  // -- picking in an order --

  // What the places name.
  function Picked(clauses: seq<string>, places: seq<nat>): (r: seq<string>)
    requires Below(places, |clauses|)
    ensures |r| == |places| && forall i :: 0 <= i < |r| ==> r[i] == clauses[places[i]]
  {
    seq(|places|, i requires 0 <= i < |places| => clauses[places[i]])
  }

  lemma WithoutAt(pool: seq<nat>, j: nat)
    requires j < |pool|
    ensures |Without(pool, j)| == |pool| - 1
    ensures forall i :: 0 <= i < |pool| - 1 ==> Without(pool, j)[i] == pool[if i < j then i else i + 1]
  {}

  lemma PickedRest(clauses: seq<string>, places: seq<nat>, rest: seq<nat>, j: nat)
    requires Below(places, |clauses|) && j < |places| && |rest| == |places| - 1
    requires forall i :: 0 <= i < |rest| ==> rest[i] == places[if i < j then i else i + 1]
    ensures Below(rest, |clauses|)
    ensures Picked(clauses, rest) == Picked(clauses, places)[..j] + Picked(clauses, places)[j + 1..]
  {}

  lemma BagWithout(all: seq<string>, j: nat)
    requires j < |all|
    ensures multiset(all) == multiset{all[j]} + multiset(all[..j] + all[j + 1..])
  {
    assert all == all[..j] + ([all[j]] + all[j + 1..]);
  }

  lemma PickedWithout(clauses: seq<string>, places: seq<nat>, j: nat)
    requires Below(places, |clauses|) && j < |places|
    ensures Below(Without(places, j), |clauses|)
    ensures multiset(Picked(clauses, places)) ==
            multiset{clauses[places[j]]} + multiset(Picked(clauses, Without(places, j)))
  {
    WithoutAt(places, j);
    PickedRest(clauses, places, Without(places, j), j);
    BagWithout(Picked(clauses, places), j);
  }

  lemma SameRest(a: seq<nat>, b: seq<nat>, i: nat, j: nat)
    requires multiset(a) == multiset(b) && i < |a| && j < |b| && a[i] == b[j]
    ensures multiset(Without(a, i)) == multiset(Without(b, j))
  {
    WithoutBag(a, i);
    WithoutBag(b, j);
    Cancel(a[i], multiset(Without(a, i)), multiset(Without(b, j)));
  }

  // The same places in another order name the same clauses.
  lemma {:induction false} PickedSame(clauses: seq<string>, a: seq<nat>, b: seq<nat>)
    requires Below(a, |clauses|) && Below(b, |clauses|) && multiset(a) == multiset(b)
    ensures multiset(Picked(clauses, a)) == multiset(Picked(clauses, b))
    decreases |a|
  {
    assert |a| == |multiset(a)| && |b| == |multiset(b)|;
    if a != [] {
      assert a[0] in multiset(b);
      var j :| 0 <= j < |b| && b[j] == a[0];
      PickedWithout(clauses, a, 0);
      PickedWithout(clauses, b, j);
      SameRest(a, b, 0, j);
      PickedSame(clauses, Without(a, 0), Without(b, j));
    }
  }
}
