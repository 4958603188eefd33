// The order in which a start brings the bricks up.
module KernelStart {
  import opened KernelBindings
  import opened KernelModel

  const ORCHESTRATOR := "orchestrator"

  predicate Less(a: string, b: string) {
    b != "" && (a == "" || a[0] < b[0] || (a[0] == b[0] && Less(a[1..], b[1..])))
  }

  // The sort key of a binding is smaller: the orchestrator comes last, the others by contract.
  predicate Sooner(a: Binding, b: Binding) {
    if (a.contract == ORCHESTRATOR) != (b.contract == ORCHESTRATOR) then b.contract == ORCHESTRATOR
    else Less(a.contract, b.contract)
  }

  function Insert(b: Binding, order: seq<Binding>): seq<Binding> {
    if order == [] || Sooner(b, order[0]) then [b] + order else [order[0]] + Insert(b, order[1..])
  }

  // `sorted(active, key=...)`: of equal keys the one listed first stays first.
  function StartOrder(active: seq<Binding>): seq<Binding> {
    if active == [] then [] else Insert(active[|active| - 1], StartOrder(active[..|active| - 1]))
  }

  predicate Sorted(order: seq<Binding>) {
    forall i, j :: 0 <= i < j < |order| ==> !Sooner(order[j], order[i])
  }

  lemma {:induction false} LessOrder(a: string, b: string, c: string)
    ensures Less(a, b) ==> !Less(b, a)
    ensures Less(a, b) && !Less(c, b) ==> Less(a, c)
    ensures Less(a, b) || Less(b, a) || a == b
  {
    if a != "" && b != "" && a[0] == b[0] {
      LessOrder(a[1..], b[1..], if c == "" then "" else c[1..]);
      assert a == [a[0]] + a[1..] && b == [b[0]] + b[1..];
    }
  }

  lemma SoonerOrder(a: Binding, b: Binding, c: Binding)
    ensures Sooner(a, b) ==> !Sooner(b, a)
    ensures Sooner(a, b) && !Sooner(c, b) ==> !Sooner(c, a)
    ensures !Sooner(a, b) && !Sooner(b, c) ==> !Sooner(a, c)
  {
    LessOrder(a.contract, b.contract, c.contract);
    LessOrder(a.contract, c.contract, b.contract);
    LessOrder(c.contract, b.contract, a.contract);
    LessOrder(b.contract, a.contract, c.contract);
  }

  lemma {:induction false} InsertBag(b: Binding, order: seq<Binding>)
    ensures multiset(Insert(b, order)) == multiset(order) + multiset{b}
  {
    if order == [] || Sooner(b, order[0]) {
      BagCons(b, order);
    } else {
      InsertBag(b, order[1..]);
      assert order == [order[0]] + order[1..];
      BagCons(order[0], order[1..]);
      BagCons(order[0], Insert(b, order[1..]));
    }
  }

  lemma BagCons(b: Binding, order: seq<Binding>)
    ensures multiset([b] + order) == multiset(order) + multiset{b}
  {}

  lemma {:induction false} InsertMembers(b: Binding, order: seq<Binding>)
    ensures forall x :: x in Insert(b, order) <==> x == b || x in order
  {
    InsertBag(b, order);
    forall x ensures x in Insert(b, order) <==> x == b || x in order {
      assert x in Insert(b, order) <==> x in multiset(Insert(b, order));
      assert x in order <==> x in multiset(order);
    }
  }

  predicate First(b: Binding, order: seq<Binding>) {
    forall x :: x in order ==> !Sooner(x, b)
  }

  lemma SortedCons(b: Binding, order: seq<Binding>)
    requires Sorted(order) && First(b, order)
    ensures Sorted([b] + order)
  {}

  lemma SortedTail(order: seq<Binding>)
    requires Sorted(order) && order != []
    ensures Sorted(order[1..]) && First(order[0], order[1..])
  {}

  lemma SoonerThanAll(b: Binding, order: seq<Binding>)
    requires order != [] && Sooner(b, order[0]) && First(order[0], order[1..])
    ensures First(b, order)
  {
    forall x | x in order ensures !Sooner(x, b) {
      if x == order[0] {
        SoonerOrder(b, x, x);
      } else {
        assert x in order[1..];
        SoonerOrder(b, order[0], x);
      }
    }
  }

  lemma {:induction false} InsertSorted(b: Binding, order: seq<Binding>)
    requires Sorted(order)
    ensures Sorted(Insert(b, order))
  {
    if order == [] {
    } else if Sooner(b, order[0]) {
      SortedTail(order);
      SoonerThanAll(b, order);
      SortedCons(b, order);
    } else {
      SortedTail(order);
      InsertSorted(b, order[1..]);
      InsertMembers(b, order[1..]);
      SortedCons(order[0], Insert(b, order[1..]));
    }
  }

  lemma {:induction false} StartOrderBag(active: seq<Binding>)
    ensures multiset(StartOrder(active)) == multiset(active)
  {
    if active != [] {
      var init, last := active[..|active| - 1], active[|active| - 1];
      StartOrderBag(init);
      InsertBag(last, StartOrder(init));
      BagSnoc(init, last);
      assert active == init + [last];
    }
  }

  lemma BagSnoc(init: seq<Binding>, last: Binding)
    ensures multiset(init + [last]) == multiset(init) + multiset{last}
  {}

  lemma {:induction false} StartOrderSorted(active: seq<Binding>)
    ensures Sorted(StartOrder(active))
  {
    if active != [] {
      StartOrderSorted(active[..|active| - 1]);
      InsertSorted(active[|active| - 1], StartOrder(active[..|active| - 1]));
    }
  }

  // The bricks are brought up in the order of their keys, each active binding once.
  lemma {:induction false} StartOrderExact(active: seq<Binding>)
    ensures multiset(StartOrder(active)) == multiset(active) && Sorted(StartOrder(active))
  {
    StartOrderBag(active);
    StartOrderSorted(active);
  }

  lemma OthersBefore(order: seq<Binding>, i: nat, j: nat)
    requires Sorted(order) && Distinct(order) && i < |order| && order[i].contract == ORCHESTRATOR && j < |order|
    ensures j <= i
  {
    assert j != i ==> Sooner(order[j], order[i]);
  }

  lemma SortedLast(order: seq<Binding>, b: Binding)
    requires Sorted(order) && Distinct(order) && b in order && b.contract == ORCHESTRATOR
    ensures order[|order| - 1] == b
  {
    var i :| 0 <= i < |order| && order[i] == b;
    OthersBefore(order, i, |order| - 1);
  }

  lemma {:induction false} BroughtUpResolves(k: Kernel, front: seq<Binding>, a: Binding)
    requires a in front
    ensures a.contract in BringUpAll(k, front).registry
  {
    var before, b := front[..|front| - 1], front[|front| - 1];
    if a != b {
      assert front == before + [b];
      BroughtUpResolves(k, before, a);
    }
  }

  lemma {:induction false} StartOrderOf(bindings: seq<Binding>)
    requires Distinct(bindings)
    ensures var order := StartOrder(Active(bindings));
            Distinct(order) && Sorted(order) && forall b :: b in order <==> ActiveIn(bindings, b)
  {
    var active := Active(bindings);
    StartOrderExact(active);
    ActiveDistinct(bindings);
    PermutedDistinct(StartOrder(active), active);
    forall b ensures b in active <==> ActiveIn(bindings, b) { ActiveMembers(bindings, b); }
  }

  lemma InFront(order: seq<Binding>, b: Binding, a: Binding)
    requires a in order && order[|order| - 1] == b && a != b
    ensures a in order[..|order| - 1]
  {
    assert order == order[..|order| - 1] + [b];
  }

  // When an orchestrator is brought up, every other active contract already resolves, whatever was
  // called before.
  lemma {:induction false} OrchestratorLast(k: Kernel, b: Binding)
    requires Distinct(k.bindings) && ActiveIn(k.bindings, b) && b.contract == ORCHESTRATOR
    ensures var order := StartOrder(Active(k.bindings));
            && order != [] && order[|order| - 1] == b
            && forall a :: ActiveIn(k.bindings, a) && a != b ==>
                 a.contract in BringUpAll(k, order[..|order| - 1]).registry
  {
    var order := StartOrder(Active(k.bindings));
    StartOrderOf(k.bindings);
    SortedLast(order, b);
    var front := order[..|order| - 1];
    forall a | ActiveIn(k.bindings, a) && a != b ensures a.contract in BringUpAll(k, front).registry {
      InFront(order, b, a);
      BroughtUpResolves(k, front, a);
    }
  }
}
