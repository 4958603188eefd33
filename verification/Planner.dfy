// The tree-search planner.
module Planner {
  import opened Prelude
  import opened Permuting

  datatype Status = Pending | Active | Done | Failed

  // `id` stands for the text "b{branch}s{place}".
  datatype Step = Step(id: (nat, nat), description: string, status: Status)

  datatype Branch = Branch(steps: seq<Step>, score: int, cursor: nat)

  datatype Plan = Plan(branches: seq<Branch>, active: nat)

  // The first step of this status, |steps| when there is none.
  function First(steps: seq<Step>, st: Status): (i: nat)
    ensures i <= |steps| && (i < |steps| ==> steps[i].status == st)
    ensures forall j :: 0 <= j < i ==> steps[j].status != st
  {
    if steps == [] || steps[0].status == st then 0 else 1 + First(steps[1..], st)
  }

  predicate Has(steps: seq<Step>, st: Status) {
    exists i :: 0 <= i < |steps| && steps[i].status == st
  }

  function Marked(steps: seq<Step>, i: nat, st: Status): seq<Step>
    requires i < |steps|
  {
    steps[i := steps[i].(status := st)]
  }

  // What an observation does to the active branch.
  function Settled(b: Branch, failed: bool): Branch {
    var i := First(b.steps, Active);
    if i == |b.steps| then b
    else if failed then b.(steps := Marked(b.steps, i, Failed), score := b.score - 1)
    else b.(steps := Marked(b.steps, i, Done), score := b.score + 1, cursor := i + 1)
  }

  // The open branch of the best score, the last one of several; |branches| when none is open.
  function Best(branches: seq<Branch>): (k: nat)
    ensures k <= |branches|
    ensures k < |branches| ==> Has(branches[k].steps, Pending)
    ensures forall j :: 0 <= j < |branches| && Has(branches[j].steps, Pending) ==>
      k < |branches| && (branches[j].score < branches[k].score || (branches[j].score == branches[k].score && j <= k))
  {
    if branches == [] then 0
    else
      var n := |branches| - 1;
      var k := Best(branches[..n]);
      if Has(branches[n].steps, Pending) then (if k < n && branches[k].score > branches[n].score then k else n)
      else if k < n then k else n + 1
  }

  // `next`: the plan after it, and where the step it hands out is.
  function Observed(p: Plan, failed: bool): Plan
    requires p.active < |p.branches|
  {
    p.(branches := p.branches[p.active := Settled(p.branches[p.active], failed)])
  }

  function Chosen(p: Plan): Option<(nat, nat)> {
    var k := Best(p.branches);
    if k < |p.branches| then Some((k, First(p.branches[k].steps, Pending))) else None
  }

  function HandedOut(p: Plan): Plan {
    match Chosen(p)
    case None => p
    case Some((k, i)) =>
      var b := p.branches[k];
      if i < |b.steps| then Plan(p.branches[k := b.(steps := Marked(b.steps, i, Active))], k) else p
  }

  function Next(p: Plan, failed: bool): Plan
    requires p.active < |p.branches|
  {
    HandedOut(Observed(p, failed))
  }

  // -- what every plan keeps --

  function Tally(steps: seq<Step>, st: Status): nat {
    if steps == [] then 0
    else Tally(steps[..|steps| - 1], st) + if steps[|steps| - 1].status == st then 1 else 0
  }

  // A branch scores its done steps less its failed ones.
  predicate Scored(b: Branch) {
    b.score == Tally(b.steps, Done) - Tally(b.steps, Failed)
  }

  // At most one step is active, in the active branch.
  predicate Good(p: Plan) {
    && p.active < |p.branches|
    && (forall k :: 0 <= k < |p.branches| ==> Scored(p.branches[k]))
    && (forall k :: 0 <= k < |p.branches| ==> Tally(p.branches[k].steps, Active) <= if k == p.active then 1 else 0)
  }

  function Left(branches: seq<Branch>): nat {
    if branches == [] then 0 else Left(branches[..|branches| - 1]) + Tally(branches[|branches| - 1].steps, Pending)
  }

  lemma {:induction false} TallyMarked(steps: seq<Step>, i: nat, st: Status, other: Status)
    requires i < |steps|
    ensures Tally(Marked(steps, i, st), other) ==
            Tally(steps, other) + (if st == other then 1 else 0) - if steps[i].status == other then 1 else 0
  {
    var n := |steps| - 1;
    if i == n {
      assert Marked(steps, i, st)[..n] == steps[..n];
    } else {
      assert Marked(steps, i, st)[..n] == Marked(steps[..n], i, st);
      TallyMarked(steps[..n], i, st, other);
    }
  }

  lemma {:induction false} TallyNone(steps: seq<Step>, st: Status)
    ensures Tally(steps, st) == 0 <==> !Has(steps, st)
  {
    if steps != [] {
      var before := steps[..|steps| - 1];
      TallyNone(before, st);
      if Has(steps, st) {
        var i :| 0 <= i < |steps| && steps[i].status == st;
        assert i < |before| ==> before[i].status == st;
      }
      assert forall i :: 0 <= i < |before| ==> before[i] == steps[i];
    }
  }

  lemma {:induction false} LeftUpdate(branches: seq<Branch>, k: nat, b: Branch)
    requires k < |branches|
    ensures Left(branches[k := b]) == Left(branches) - Tally(branches[k].steps, Pending) + Tally(b.steps, Pending)
  {
    var n := |branches| - 1;
    if k == n {
      assert branches[k := b][..n] == branches[..n];
    } else {
      assert branches[k := b][..n] == branches[..n][k := b];
      LeftUpdate(branches[..n], k, b);
    }
  }

  // An observation makes the active step done or failed, and nothing else.
  lemma SettledCounts(b: Branch, failed: bool)
    requires Scored(b)
    ensures Scored(Settled(b, failed))
    ensures Tally(Settled(b, failed).steps, Pending) == Tally(b.steps, Pending)
    ensures Tally(b.steps, Active) <= 1 ==> Tally(Settled(b, failed).steps, Active) == 0
    ensures Tally(Settled(b, failed).steps, Done) ==
            Tally(b.steps, Done) + if Has(b.steps, Active) && !failed then 1 else 0
    ensures Tally(Settled(b, failed).steps, Failed) ==
            Tally(b.steps, Failed) + if Has(b.steps, Active) && failed then 1 else 0
  {
    var i := First(b.steps, Active);
    TallyNone(b.steps, Active);
    if i < |b.steps| {
      var st := if failed then Failed else Done;
      TallyMarked(b.steps, i, st, Done);
      TallyMarked(b.steps, i, st, Failed);
      TallyMarked(b.steps, i, st, Pending);
      TallyMarked(b.steps, i, st, Active);
    } else {
      assert forall j :: 0 <= j < |b.steps| ==> b.steps[j].status != Active;
    }
  }

  // After an observation no step is active, and as many are pending as before.
  lemma ObservedGood(p: Plan, failed: bool)
    requires Good(p)
    ensures var q := Observed(p, failed);
            && Good(q) && Left(q.branches) == Left(p.branches)
            && forall k :: 0 <= k < |q.branches| ==> Tally(q.branches[k].steps, Active) == 0
  {
    SettledCounts(p.branches[p.active], failed);
    LeftUpdate(p.branches, p.active, Settled(p.branches[p.active], failed));
  }

  lemma {:induction false} NothingLeft(branches: seq<Branch>)
    requires forall k :: 0 <= k < |branches| ==> !Has(branches[k].steps, Pending)
    ensures Left(branches) == 0
  {
    if branches != [] {
      NothingLeft(branches[..|branches| - 1]);
      TallyNone(branches[|branches| - 1].steps, Pending);
    }
  }

  // Handing out a step in a plan with none active.
  lemma HandedOutGood(q: Plan)
    requires Good(q) && forall k :: 0 <= k < |q.branches| ==> Tally(q.branches[k].steps, Active) == 0
    ensures Good(HandedOut(q))
    ensures match Chosen(q)
            case None => Left(q.branches) == 0 && HandedOut(q) == q
            case Some((k, i)) => Left(HandedOut(q).branches) == Left(q.branches) - 1
  {
    var k := Best(q.branches);
    if k < |q.branches| {
      var b := q.branches[k];
      var i := First(b.steps, Pending);
      assert i < |b.steps|;
      TallyMarked(b.steps, i, Active, Done);
      TallyMarked(b.steps, i, Active, Failed);
      TallyMarked(b.steps, i, Active, Pending);
      TallyMarked(b.steps, i, Active, Active);
      LeftUpdate(q.branches, k, b.(steps := Marked(b.steps, i, Active)));
    } else {
      NothingLeft(q.branches);
    }
  }

  // A step handed out was the first pending one of an open branch with the best score, the last such
  // branch; it is the active step now, and nothing else has changed.
  ghost predicate HandsOut(q: Plan, p': Plan, k: nat, i: nat) {
    && k < |q.branches| == |p'.branches| && i < |q.branches[k].steps| == |p'.branches[k].steps|
    && q.branches[k].steps[i].status == Pending
    && (forall j :: 0 <= j < i ==> q.branches[k].steps[j].status != Pending)
    && (forall j :: 0 <= j < |q.branches| && Has(q.branches[j].steps, Pending) ==>
          q.branches[j].score <= q.branches[k].score && (q.branches[j].score == q.branches[k].score ==> j <= k))
    && p'.active == k && p'.branches[k].steps[i] == q.branches[k].steps[i].(status := Active)
    && (forall j :: 0 <= j < |q.branches| && j != k ==> p'.branches[j] == q.branches[j])
    && (forall j :: 0 <= j < |q.branches[k].steps| && j != i ==> p'.branches[k].steps[j] == q.branches[k].steps[j])
    && p'.branches[k].score == q.branches[k].score && p'.branches[k].cursor == q.branches[k].cursor
  }

  ghost predicate OnlyActive(p: Plan, k: nat, i: nat) {
    && p.active == k < |p.branches| && i < |p.branches[k].steps|
    && forall m, j :: 0 <= m < |p.branches| && 0 <= j < |p.branches[m].steps| ==>
         (p.branches[m].steps[j].status == Active <==> m == k && j == i)
  }

  // The answer is the one active step, just handed out.
  ghost predicate Answers(q: Plan, p': Plan, s: Step) {
    exists i: nat ::
      HandsOut(q, p', p'.active, i) && OnlyActive(p', p'.active, i) && s == p'.branches[p'.active].steps[i]
  }

  ghost predicate NothingPending(p: Plan) {
    forall k, i :: 0 <= k < |p.branches| && 0 <= i < |p.branches[k].steps| ==> p.branches[k].steps[i].status != Pending
  }

  // What an observation makes of the step in this place.
  function Seen(s: Step, failed: bool): Step {
    if s.status.Active? then s.(status := if failed then Failed else Done) else s
  }

  lemma {:induction false} OneActive(steps: seq<Step>, i: nat)
    requires Tally(steps, Active) <= 1 && i < |steps| && steps[i].status == Active
    ensures forall j :: 0 <= j < |steps| && j != i ==> steps[j].status != Active
  {
    var n := |steps| - 1;
    TallyNone(steps[..n], Active);
    if i < n { OneActive(steps[..n], i); }
    forall j | 0 <= j < n && j != i ensures steps[j].status != Active { assert steps[..n][j] == steps[j]; }
  }

  // It settles the active step, counts it in the score, and touches nothing else.
  lemma ObservedExact(p: Plan, failed: bool)
    requires Good(p)
    ensures var q, a := Observed(p, failed), p.active;
            && q.active == a && |q.branches| == |p.branches|
            && (forall k :: 0 <= k < |p.branches| && k != a ==> q.branches[k] == p.branches[k])
            && |q.branches[a].steps| == |p.branches[a].steps|
            && (forall i :: 0 <= i < |p.branches[a].steps| ==>
                  q.branches[a].steps[i] == Seen(p.branches[a].steps[i], failed))
            && q.branches[a].score == p.branches[a].score
                 + (if Has(p.branches[a].steps, Active) then if failed then -1 else 1 else 0)
            && (forall i :: 0 <= i < |p.branches[a].steps| && p.branches[a].steps[i].status == Active ==>
                  q.branches[a].cursor == if failed then p.branches[a].cursor else i + 1)
            && (!Has(p.branches[a].steps, Active) ==> q.branches[a] == p.branches[a])
  {
    var steps := p.branches[p.active].steps;
    var i := First(steps, Active);
    if i < |steps| { OneActive(steps, i); }
  }

  // A plan in which nothing is active hands out one step, unless none is pending.
  lemma HandedOutExact(q: Plan)
    requires forall k :: 0 <= k < |q.branches| ==> Tally(q.branches[k].steps, Active) == 0
    ensures match Chosen(q)
            case None => NothingPending(q) && HandedOut(q) == q
            case Some((k, i)) => HandsOut(q, HandedOut(q), k, i) && OnlyActive(HandedOut(q), k, i)
  {
    forall k | 0 <= k < |q.branches| ensures !Has(q.branches[k].steps, Active) {
      TallyNone(q.branches[k].steps, Active);
    }
    var k := Best(q.branches);
    if k < |q.branches| {
      var i := First(q.branches[k].steps, Pending);
      assert i < |q.branches[k].steps|;
      assert HandsOut(q, HandedOut(q), k, i);
    } else {
      forall k, i | 0 <= k < |q.branches| && 0 <= i < |q.branches[k].steps|
        ensures q.branches[k].steps[i].status != Pending
      {
        assert !Has(q.branches[k].steps, Pending);
      }
    }
  }

  // An observation leaves just as much pending.
  lemma PendingStays(p: Plan, failed: bool)
    requires Good(p)
    ensures NothingPending(Observed(p, failed)) <==> NothingPending(p)
  {
    var q := Observed(p, failed);
    ObservedExact(p, failed);
    forall k, i | 0 <= k < |p.branches| && 0 <= i < |p.branches[k].steps|
      ensures q.branches[k].steps[i].status == Pending <==> p.branches[k].steps[i].status == Pending
    {}
  }

  // `next` keeps a plan good; it takes one pending step, or answers with none when nothing is left.
  lemma NextGood(p: Plan, failed: bool)
    requires Good(p)
    ensures Good(Next(p, failed))
    ensures match Chosen(Observed(p, failed))
            case None => Left(p.branches) == 0 == Left(Next(p, failed).branches)
            case Some((k, i)) =>
              HandsOut(Observed(p, failed), Next(p, failed), k, i)
              && Left(Next(p, failed).branches) == Left(p.branches) - 1
  {
    ObservedGood(p, failed);
    HandedOutGood(Observed(p, failed));
    var q := Observed(p, failed);
    if Best(q.branches) < |q.branches| {
      var b := q.branches[Best(q.branches)];
      assert First(b.steps, Pending) < |b.steps|;
    }
  }

  // -- whole runs --

  function Run(p: Plan, failures: seq<bool>): Plan
    requires Good(p)
    ensures Good(Run(p, failures))
  {
    if failures == [] then p
    else
      var q := Run(p, failures[..|failures| - 1]);
      NextGood(q, failures[|failures| - 1]);
      Next(q, failures[|failures| - 1])
  }

  // How many replies of the run hand out a step.
  function Replies(p: Plan, failures: seq<bool>): nat
    requires Good(p)
  {
    if failures == [] then 0
    else
      var q := Run(p, failures[..|failures| - 1]);
      Replies(p, failures[..|failures| - 1]) +
      if Chosen(Observed(q, failures[|failures| - 1])).Some? then 1 else 0
  }

  function Steps(branches: seq<Branch>): nat {
    if branches == [] then 0 else Steps(branches[..|branches| - 1]) + |branches[|branches| - 1].steps|
  }

  lemma {:induction false} TallyMost(steps: seq<Step>, st: Status)
    ensures Tally(steps, st) <= |steps|
  {
    if steps != [] { TallyMost(steps[..|steps| - 1], st); }
  }

  lemma {:induction false} LeftMost(branches: seq<Branch>)
    ensures Left(branches) <= Steps(branches)
  {
    if branches != [] {
      LeftMost(branches[..|branches| - 1]);
      TallyMost(branches[|branches| - 1].steps, Pending);
    }
  }

  // Each step handed out was pending, once; so there are no more of them than steps.
  lemma {:induction false} RepliesBounded(p: Plan, failures: seq<bool>)
    requires Good(p)
    ensures Replies(p, failures) == Left(p.branches) - Left(Run(p, failures).branches)
    ensures Replies(p, failures) <= Steps(p.branches)
  {
    LeftMost(p.branches);
    if failures != [] {
      RepliesBounded(p, failures[..|failures| - 1]);
      NextGood(Run(p, failures[..|failures| - 1]), failures[|failures| - 1]);
    }
  }

  predicate AllDone(b: Branch) {
    forall i :: 0 <= i < |b.steps| ==> b.steps[i].status == Done
  }

  // `is_complete`.
  predicate Complete(p: Plan) {
    || (exists k :: 0 <= k < |p.branches| && AllDone(p.branches[k]))
    || (forall k :: 0 <= k < |p.branches| ==> Has(p.branches[k].steps, Failed))
  }

  // Some branch has done all its steps, or every branch has a failed one.
  lemma CompleteExact(p: Plan)
    ensures Complete(p) <==>
            || (exists b :: b in p.branches && forall s :: s in b.steps ==> s.status == Done)
            || (forall b :: b in p.branches ==> exists s :: s in b.steps && s.status == Failed)
  {
    forall b: Branch ensures AllDone(b) <==> forall s :: s in b.steps ==> s.status == Done {
      assert forall i :: 0 <= i < |b.steps| ==> b.steps[i] in b.steps;
    }
    forall b: Branch ensures Has(b.steps, Failed) <==> exists s :: s in b.steps && s.status == Failed {
      assert forall i :: 0 <= i < |b.steps| ==> b.steps[i] in b.steps;
    }
    assert forall k :: 0 <= k < |p.branches| ==> p.branches[k] in p.branches;
  }

  // Done and failed are for ever.
  ghost predicate Advanced(b: Branch, b': Branch) {
    && |b'.steps| == |b.steps|
    && forall i :: 0 <= i < |b.steps| && (b.steps[i].status == Done || b.steps[i].status == Failed) ==>
         b'.steps[i] == b.steps[i]
  }

  lemma NextAdvances(p: Plan, failed: bool, k: nat)
    requires Good(p) && k < |p.branches|
    ensures |Next(p, failed).branches| == |p.branches| && Advanced(p.branches[k], Next(p, failed).branches[k])
  {
    var q := Observed(p, failed);
    assert Advanced(p.branches[k], q.branches[k]);
    assert Advanced(q.branches[k], HandedOut(q).branches[k]);
  }

  // A complete plan stays complete.
  lemma CompleteStays(p: Plan, failed: bool)
    requires Good(p) && Complete(p)
    ensures Complete(Next(p, failed))
  {
    var p' := Next(p, failed);
    forall k | 0 <= k < |p.branches| ensures |p'.branches| == |p.branches| && Advanced(p.branches[k], p'.branches[k]) {
      NextAdvances(p, failed, k);
    }
    if k :| 0 <= k < |p.branches| && AllDone(p.branches[k]) {
      assert AllDone(p'.branches[k]);
    } else {
      forall k | 0 <= k < |p.branches| ensures Has(p'.branches[k].steps, Failed) {
        var i :| 0 <= i < |p.branches[k].steps| && p.branches[k].steps[i].status == Failed;
        assert p'.branches[k].steps[i].status == Failed;
      }
    }
  }

  lemma {:induction false} CompleteForGood(p: Plan, failures: seq<bool>, n: nat)
    requires Good(p) && n <= |failures| && Complete(Run(p, failures[..n]))
    ensures Complete(Run(p, failures))
  {
    if n == |failures| {
      assert failures[..n] == failures;
    } else {
      var before := failures[..|failures| - 1];
      assert before[..n] == failures[..n];
      CompleteForGood(p, before, n);
      CompleteStays(Run(p, before), failures[|failures| - 1]);
    }
  }

  // -- a new plan --

  predicate SpaceOrDot(c: char) { c == ' ' || c == '.' }

  // The clauses of a goal that splits into these pieces; the whole goal when they are all empty.
  function Clauses(goal: string, pieces: seq<string>): (clauses: seq<string>)
    ensures clauses != []
  {
    var kept := Kept(pieces);
    if kept == [] then [Strip(goal, Space)] else kept
  }

  // What is left of a piece, if anything.
  function Clause(piece: string): (clause: seq<string>)
    ensures "" !in clause
  {
    var c := Strip(piece, SpaceOrDot);
    if c == "" then [] else [c]
  }

  function Kept(pieces: seq<string>): (kept: seq<string>)
    ensures "" !in kept
  {
    if pieces == [] then [] else Kept(pieces[..|pieces| - 1]) + Clause(pieces[|pieces| - 1])
  }

  lemma Regroup(x: seq<string>, y: seq<string>, z: seq<string>)
    ensures x + (y + z) == x + y + z
  {}

  lemma {:induction false} KeptConcat(a: seq<string>, b: seq<string>)
    ensures Kept(a + b) == Kept(a) + Kept(b)
  {
    if b == [] {
      assert a + b == a;
    } else {
      KeptConcat(a, b[..|b| - 1]);
      assert (a + b)[..|a + b| - 1] == a + b[..|b| - 1];
      assert (a + b)[|a + b| - 1] == b[|b| - 1];
      Regroup(Kept(a), Kept(b[..|b| - 1]), Clause(b[|b| - 1]));
    }
  }

  // A goal's clauses are its pieces in order, each without the spaces and dots around it and left out if
  // nothing else is in it; or, if that is so of every piece, the goal.
  lemma {:induction false} ClausesExact(goal: string, pieces: seq<string>, n: nat)
    requires n < |pieces|
    ensures var c := Strip(pieces[n], ch => ch in " .");
            Kept(pieces) == Kept(pieces[..n]) + (if c == "" then [] else [c]) + Kept(pieces[n + 1..])
    ensures Clauses(goal, pieces) == if Kept(pieces) != [] then Kept(pieces) else [Strip(goal, Space)]
    ensures Clauses(goal, []) == [Strip(goal, Space)]
  {
    assert pieces == pieces[..n] + [pieces[n]] + pieces[n + 1..];
    KeptConcat(pieces[..n] + [pieces[n]], pieces[n + 1..]);
    KeptConcat(pieces[..n], [pieces[n]]);
    assert [pieces[n]][..0] == [];
    StripSame(pieces[n], SpaceOrDot, ch => ch in " .");
  }

  // An ordering of the clauses, as the b-th branch.
  function NewBranch(clauses: seq<string>, order: seq<nat>, b: nat): Branch
    requires Below(order, |clauses|)
  {
    var names := Picked(clauses, order);
    Branch(seq(|order|, i requires 0 <= i < |order| => Step((b, i), names[i], Pending)), 0, 0)
  }

  // The orders of the branches: that of the first clause alone when no branch is wanted.
  function Orders(clauses: seq<string>, max: nat): (orders: seq<seq<nat>>)
    requires clauses != []
    ensures orders != [] && forall b :: 0 <= b < |orders| ==> Below(orders[b], |clauses|)
  {
    OrdersPermute(clauses, max);
    if max == 0 then [[0]] else Orderings(|clauses|, max)
  }

  lemma OrdersPermute(clauses: seq<string>, max: nat)
    requires clauses != []
    ensures var orders := Orderings(|clauses|, max);
            forall b :: 0 <= b < |orders| ==> Permutes(orders[b], |clauses|) && Below(orders[b], |clauses|)
    ensures max > 0 ==> Orderings(|clauses|, max) != []
  {
    var n := |clauses|;
    OrderingsExact(n, max);
    forall b | 0 <= b < |Orderings(n, max)| ensures Below(Orderings(n, max)[b], n) {
      PermutesBelow(Orderings(n, max)[b], n);
    }
    if max > 0 { OrderingsFirst(n, max); }
  }

  function NewPlan(clauses: seq<string>, max: nat): Plan
    requires clauses != []
  {
    var orders := Orders(clauses, max);
    Plan(seq(|orders|, b requires 0 <= b < |orders| => NewBranch(clauses, orders[b], b)), 0)
  }

  function Descriptions(b: Branch): seq<string> {
    seq(|b.steps|, i requires 0 <= i < |b.steps| => b.steps[i].description)
  }

  // Each branch is an ordering of all the clauses just when a branch is wanted or there is one clause;
  // the first branch, which is the answer, then has them as the goal has them.
  lemma {:induction false} NewPlanCovers(clauses: seq<string>, max: nat)
    requires clauses != []
    ensures var branches := NewPlan(clauses, max).branches;
            && |branches| == (if max == 0 then 1 else if max < Factorial(|clauses|) then max else Factorial(|clauses|))
            && ((forall b :: 0 <= b < |branches| ==> multiset(Descriptions(branches[b])) == multiset(clauses))
                <==> max > 0 || |clauses| == 1)
            && (max > 0 ==> Descriptions(branches[0]) == clauses)
  {
    var n, orders, branches := |clauses|, Orders(clauses, max), NewPlan(clauses, max).branches;
    OrderingsExact(n, max);
    assert Picked(clauses, Range(n)) == clauses;
    forall b | 0 <= b < |branches| ensures Descriptions(branches[b]) == Picked(clauses, orders[b]) {}
    if max > 0 {
      OrderingsFirst(n, max);
      forall b | 0 <= b < |branches| ensures multiset(Descriptions(branches[b])) == multiset(clauses) {
        PickedSame(clauses, orders[b], Range(n));
      }
    } else {
      assert Descriptions(branches[0]) == [clauses[0]];
      if n == 1 {
        assert clauses == [clauses[0]];
      } else {
        assert |multiset(clauses)| == n && |multiset([clauses[0]])| == 1;
      }
    }
  }

  lemma {:induction false} TallyAll(steps: seq<Step>, st: Status)
    requires forall i :: 0 <= i < |steps| ==> steps[i].status == Pending
    ensures Tally(steps, st) == if st == Pending then |steps| else 0
  {
    if steps != [] { TallyAll(steps[..|steps| - 1], st); }
  }

  lemma NewBranchFresh(clauses: seq<string>, order: seq<nat>, b: nat)
    requires Below(order, |clauses|)
    ensures Scored(NewBranch(clauses, order, b)) && Tally(NewBranch(clauses, order, b).steps, Active) == 0
  {
    var steps := NewBranch(clauses, order, b).steps;
    TallyAll(steps, Done);
    TallyAll(steps, Failed);
    TallyAll(steps, Active);
  }

  // A new plan is good; its first branch is the active one, and every step of it is pending and has its
  // branch and place for an id.
  lemma NewPlanGood(clauses: seq<string>, max: nat)
    requires clauses != []
    ensures Good(NewPlan(clauses, max)) && NewPlan(clauses, max).active == 0
    ensures var branches := NewPlan(clauses, max).branches;
            forall b, i :: 0 <= b < |branches| && 0 <= i < |branches[b].steps| ==>
              branches[b].cursor == 0 && branches[b].steps[i].id == (b, i) && branches[b].steps[i].status == Pending
  {
    var orders, branches := Orders(clauses, max), NewPlan(clauses, max).branches;
    forall k | 0 <= k < |orders| ensures Scored(branches[k]) && Tally(branches[k].steps, Active) == 0 {
      NewBranchFresh(clauses, orders[k], k);
    }
  }

  // -- the object --

  class PlanningTreeSearch {
    var plans: map<string, Plan>

    ghost predicate Valid()
      reads this
    {
      forall id :: id in plans ==> Good(plans[id])
    }

    constructor ()
      ensures Valid() && plans == map[]
    {
      plans := map[];
    }

    // `plan`, under a fresh id, of a goal that splits into these pieces; with a negative `max_branches`
    // there is no first ordering to take.
    method MakePlan(id: string, goal: string, pieces: seq<string>, max: int) returns (r: Result<seq<Step>>)
      requires Valid()
      modifies this
      ensures Valid() && (r.Err? <==> max < 0)
      ensures r.Err? ==> plans == old(plans)
      ensures r.Ok? ==> plans == old(plans)[id := NewPlan(Clauses(goal, pieces), max)]
      ensures r.Ok? ==> r.value == NewPlan(Clauses(goal, pieces), max).branches[0].steps
    {
      if max < 0 { return Err("a negative stop"); }
      var clauses := Clauses(goal, pieces);
      NewPlanGood(clauses, max);
      var p := NewPlan(clauses, max);
      plans := plans[id := p];
      r := Ok(p.branches[0].steps);
    }

    // The first step of this status in a list.
    static method Find(steps: seq<Step>, st: Status) returns (i: nat)
      ensures i == First(steps, st)
    {
      i := 0;
      while i < |steps| && steps[i].status != st
        invariant i <= |steps| && forall j :: 0 <= j < i ==> steps[j].status != st
      {
        i := i + 1;
      }
      FirstIs(steps, st, i);
    }

    // The open branch to go on with.
    static method Pick(branches: seq<Branch>) returns (k: nat)
      ensures k == Best(branches)
    {
      k := |branches|;
      for n := 0 to |branches|
        invariant if k < |branches| then k == Best(branches[..n]) < n else Best(branches[..n]) == n && k == |branches|
      {
        assert branches[..n + 1][..n] == branches[..n];
        if Has(branches[n].steps, Pending) && (k == |branches| || branches[k].score <= branches[n].score) { k := n; }
      }
      assert branches[..|branches|] == branches;
    }

    // The first half of `next`.
    static method Observe(p: Plan, failed: bool) returns (q: Plan)
      requires p.active < |p.branches|
      ensures q == Observed(p, failed)
    {
      var cur := p.branches[p.active];
      var i := Find(cur.steps, Active);
      if i < |cur.steps| {
        if failed {
          cur := cur.(steps := Marked(cur.steps, i, Failed), score := cur.score - 1);
        } else {
          cur := cur.(steps := Marked(cur.steps, i, Done), score := cur.score + 1, cursor := i + 1);
        }
      }
      q := p.(branches := p.branches[p.active := cur]);
    }

    // The second half.
    static method HandOut(q: Plan) returns (p: Plan, r: Option<Step>)
      requires forall k :: 0 <= k < |q.branches| ==> Tally(q.branches[k].steps, Active) == 0
      ensures p == HandedOut(q)
      ensures r.None? <==> NothingPending(q)
      ensures r.Some? ==> Answers(q, p, r.value)
    {
      HandedOutExact(q);
      var k := Pick(q.branches);
      if k == |q.branches| { return q, None; }
      var chosen := q.branches[k];
      var j := Find(chosen.steps, Pending);
      assert j < |chosen.steps|;
      var steps := Marked(chosen.steps, j, Active);
      p := Plan(q.branches[k := chosen.(steps := steps)], k);
      r := Some(steps[j]);
      assert HandsOut(q, p, k, j) && OnlyActive(p, k, j);
    }

    // `is_complete`; an unknown plan is an error.
    method IsComplete(id: string) returns (r: Result<bool>)
      ensures r.Err? <==> id !in plans
      ensures r.Ok? ==> (r.value <==> Complete(plans[id]))
    {
      if id !in plans { return Err("unknown plan"); }
      var branches := plans[id].branches;
      var failed := true;
      for k := 0 to |branches|
        invariant forall j :: 0 <= j < k ==> !AllDone(branches[j])
        invariant failed <==> forall j :: 0 <= j < k ==> Has(branches[j].steps, Failed)
      {
        if AllDone(branches[k]) { return Ok(true); }
        if !Has(branches[k].steps, Failed) { failed := false; }
      }
      r := Ok(failed);
    }

    // `next`; an unknown plan is an error.
    method NextStep(id: string, observations: seq<string>) returns (r: Result<Option<Step>>)
      requires Valid()
      modifies this
      ensures Valid()
      ensures r.Err? <==> id !in old(plans)
      ensures r.Err? ==> plans == old(plans)
      ensures r.Ok? ==> plans == old(plans)[id := Next(old(plans)[id], "failed" in observations)]
      ensures r.Ok? ==> (r.value.None? <==> NothingPending(old(plans)[id]))
      ensures r.Ok? && r.value.Some? ==>
        Answers(Observed(old(plans)[id], "failed" in observations), plans[id], r.value.value)
    {
      if id !in plans { return Err("unknown plan"); }
      var p, failed := plans[id], "failed" in observations;
      NextGood(p, failed);
      ObservedGood(p, failed);
      PendingStays(p, failed);
      var q := Observe(p, failed);
      var step;
      p, step := HandOut(q);
      plans := plans[id := p];
      r := Ok(step);
    }
  }

  lemma {:induction false} FirstIs(steps: seq<Step>, st: Status, n: nat)
    requires n <= |steps| && (n < |steps| ==> steps[n].status == st)
    requires forall j :: 0 <= j < n ==> steps[j].status != st
    ensures First(steps, st) == n
  {
    if n > 0 { FirstIs(steps[1..], st, n - 1); }
  }
}
