// Cancellation completes: delivering messages, running scheduled sends and unwinding cancelled tasks
// always reaches quiescence, in a number of steps bounded in advance.
module Drain {
  import opened JsonRpc
  import opened EndpointModel
  import opened EndpointInvariant
  import opened LinkInvariant
  import opened Network

  predicate CancelledTask(s: Net, t: TaskRef) {
    t.ep < |s| && LiveTask(s[t.ep], t.id) && s[t.ep].tasks[t.id].cancelReq
  }

  // Steps nobody has to decide on: a delivery, a scheduled send, and the unwinding of a cancelled
  // task, whose awaited calls are given up first.
  predicate DrainStep(topo: seq<nat>, s: Net, st: Step)
    requires Topology(topo) && |s| == |topo|
  {
    LegalStep(topo, s, st) &&
    match st.act
    case Flush(_) => true
    case Dispatch(_) => true
    case Client(id, CallAbandon) => MadeBySome(s[st.ep].out[id]) && CancelledTask(s, s[st.ep].out[id].kind.owner.value)
    case Server(id, Unwind) => CancelledTask(s, TaskRef(st.ep, id))
    case _ => false
  }

  // A cancelled task can unwind, or a call of its own can be given up first.
  lemma CancelledMoves(topo: seq<nat>, s: Net, t: TaskRef)
    requires NetInv(topo, s) && CancelledTask(s, t)
    ensures exists st :: DrainStep(topo, s, st)
  {
    if Idle(s, t) {
      var st := Step(t.ep, Server(t.id, Unwind));
      assert LegalStep(topo, s, st);
      assert DrainStep(topo, s, st);
    } else {
      var f, i :| 0 <= f < |s| && i in s[f].out && MadeBy(s[f].out[i], t) && s[f].out[i].kind.wait.Awaiting?;
      var st := Step(f, Client(i, CallAbandon));
      assert LegalStep(topo, s, st);
      assert DrainStep(topo, s, st);
    }
  }

  lemma DrainEnabled(topo: seq<nat>, s: Net)
    requires NetInv(topo, s) && AllUp(s) && !Quiescent(topo, s)
    ensures exists st :: DrainStep(topo, s, st)
  {
    var e :| 0 <= e < |s| && !(s[e].scheduled == [] && s[e].read == |s[topo[e]].wire|
      && (forall id :: id in s[e].tasks && LiveTask(s[e], id) ==> !s[e].tasks[id].cancelReq));
    if s[e].scheduled != [] {
      assert DrainStep(topo, s, Step(e, Flush(0)));
    } else if s[e].read != |s[topo[e]].wire| {
      assert Link(s[e], s[topo[e]]);
      assert DrainStep(topo, s, Step(e, Dispatch(s[topo[e]].wire[s[e].read])));
    } else {
      var id :| id in s[e].tasks && LiveTask(s[e], id) && s[e].tasks[id].cancelReq;
      CancelledMoves(topo, s, TaskRef(e, id));
    }
  }

  // -- the measure --

  function Awaited(e: EP): set<nat> {
    set id | id in e.out && e.out[id].kind.Single? && e.out[id].kind.wait.Awaiting?
  }

  function Live(e: EP): set<nat> {
    set id | id in e.tasks && !e.tasks[id].state.Ended?
  }

  // A request still to arrive brings a task with it.
  function Weight(w: seq<Msg>): nat {
    if w == [] then 0 else Weight(w[..|w| - 1]) + if w[|w| - 1].Request? then 4 else 1
  }

  function Potential(e: EP, peer: EP): int {
    3 * |Awaited(e)| + 3 * |Live(e)| + 2 * |e.scheduled|
    + Weight(peer.wire) - Weight(peer.wire[..Min(e.read, |peer.wire|)])
  }

  function Sum(xs: seq<int>): int {
    if xs == [] then 0 else Sum(xs[..|xs| - 1]) + xs[|xs| - 1]
  }

  function Potentials(topo: seq<nat>, s: Net): seq<int>
    requires Topology(topo) && |s| == |topo|
  {
    seq(|s|, e requires 0 <= e < |s| => Potential(s[e], s[topo[e]]))
  }

  function Measure(topo: seq<nat>, s: Net): int
    requires Topology(topo) && |s| == |topo|
  {
    Sum(Potentials(topo, s))
  }

  lemma {:induction false} WeightPrefix(w: seq<Msg>, k: nat)
    requires k <= |w|
    ensures Weight(w[..k]) <= Weight(w)
    ensures k < |w| ==> Weight(w[..k + 1]) == Weight(w[..k]) + if w[k].Request? then 4 else 1
  {
    if k < |w| {
      assert w[..k + 1][..k] == w[..k];
      if k + 1 == |w| {
        assert w[..k + 1] == w;
      } else {
        WeightPrefix(w[..|w| - 1], k);
        assert w[..|w| - 1][..k] == w[..k];
      }
    } else {
      assert w[..k] == w;
    }
  }

  lemma {:induction false} SumNonNegative(xs: seq<int>)
    requires forall i :: 0 <= i < |xs| ==> xs[i] >= 0
    ensures Sum(xs) >= 0
  {
    if xs != [] { SumNonNegative(xs[..|xs| - 1]); }
  }

  lemma {:induction false} SumTwoChanged(xs: seq<int>, ys: seq<int>, i: nat, p: nat)
    requires |xs| == |ys| && i != p
    requires forall k :: 0 <= k < |xs| && k != i && k != p ==> xs[k] == ys[k]
    ensures Sum(ys) == Sum(xs) + (if i < |xs| then ys[i] - xs[i] else 0) + (if p < |xs| then ys[p] - xs[p] else 0)
  {
    if xs != [] { SumTwoChanged(xs[..|xs| - 1], ys[..|ys| - 1], i, p); }
  }

  lemma AwaitedStep(e: EP, x: Action)
    requires Enabled(e, x) && (x.Flush? || x.Dispatch? || x.Client? || x.Server?)
    ensures Awaited(Apply(e, x)) <= Awaited(e)
    ensures x.Client? && x.c.CallAbandon? ==> x.id in Awaited(e) && Awaited(Apply(e, x)) <= Awaited(e) - {x.id}
  {
    forall id | id in Awaited(Apply(e, x)) ensures id in Awaited(e) { OwnerStep(e.out[id], id, x); }
  }

  lemma LiveStep(e: EP, x: Action)
    requires Enabled(e, x) && (x.Flush? || x.Dispatch? || (x.Client? && x.c.CallAbandon?) || (x.Server? && x.t.Unwind?))
    ensures Live(Apply(e, x)) <= Live(e) + if x.Dispatch? && x.msg.Request? then {x.msg.id} else {}
    ensures x.Server? ==> x.id in Live(e) && Live(Apply(e, x)) <= Live(e) - {x.id}
  {}

  lemma SmallerSet(a: set<nat>, b: set<nat>)
    requires a <= b
    ensures |a| <= |b|
  {
    if a != {} {
      var x :| x in a;
      SmallerSet(a - {x}, b - {x});
    }
  }

  // Deliveries use up what is under way.
  function Work(e: EP): nat {
    3 * |Awaited(e)| + 3 * |Live(e)| + 2 * |e.scheduled|
  }

  lemma FlushWork(e: EP, k: nat)
    requires k < |e.scheduled|
    ensures Work(Apply(e, Flush(k))) <= Work(e) - 2
  {
    AwaitedStep(e, Flush(k));
    LiveStep(e, Flush(k));
    SmallerSet(Awaited(Apply(e, Flush(k))), Awaited(e));
    SmallerSet(Live(Apply(e, Flush(k))), Live(e));
  }

  lemma DispatchWork(e: EP, m: Msg)
    requires !e.closed
    ensures Work(Apply(e, Dispatch(m))) <= Work(e) + if m.Request? then 3 else 0
  {
    var e' := Apply(e, Dispatch(m));
    AwaitedStep(e, Dispatch(m));
    LiveStep(e, Dispatch(m));
    SmallerSet(Awaited(e'), Awaited(e));
    SmallerSet(Live(e'), Live(e) + if m.Request? then {m.id} else {});
  }

  lemma AbandonWork(e: EP, id: nat)
    requires Enabled(e, Client(id, CallAbandon))
    ensures Work(Apply(e, Client(id, CallAbandon))) <= Work(e) - 1
  {
    var e' := Apply(e, Client(id, CallAbandon));
    AwaitedStep(e, Client(id, CallAbandon));
    LiveStep(e, Client(id, CallAbandon));
    SmallerSet(Awaited(e'), Awaited(e) - {id});
    SmallerSet(Live(e'), Live(e));
  }

  lemma UnwindWork(e: EP, id: nat)
    requires Enabled(e, Server(id, Unwind))
    ensures Work(Apply(e, Server(id, Unwind))) <= Work(e) - 1
  {
    var e' := Apply(e, Server(id, Unwind));
    AwaitedStep(e, Server(id, Unwind));
    LiveStep(e, Server(id, Unwind));
    SmallerSet(Awaited(e'), Awaited(e));
    SmallerSet(Live(e'), Live(e) - {id});
  }

  predicate Draining(x: Action) {
    x.Flush? || x.Dispatch? || (x.Client? && x.c.CallAbandon?) || (x.Server? && x.t.Unwind?)
  }

  // The acting endpoint loses more potential than its peer gains by what was written.
  lemma OwnPotential(e: EP, peer: EP, x: Action)
    requires e.read <= |peer.wire| && Legal(e, peer, x) && Draining(x)
    ensures Potential(Apply(e, x), peer) < Potential(e, peer) - if x.Flush? then 1 else 0
  {
    if x.Flush? { FlushWork(e, x.k); }
    else if x.Dispatch? { DispatchWork(e, x.msg); WeightPrefix(peer.wire, e.read); }
    else if x.Client? { AbandonWork(e, x.id); }
    else { UnwindWork(e, x.id); }
  }

  lemma PeerPotential(e: EP, peer: EP, x: Action)
    requires Good(e) && peer.read <= |e.wire| && Enabled(e, x) && Draining(x)
    ensures Potential(peer, Apply(e, x)) <= Potential(peer, e) + if x.Flush? then 1 else 0
  {
    var w, w' := e.wire, Apply(e, x).wire;
    assert w'[..peer.read] == w[..peer.read];
    if x.Flush? && !e.broken {
      assert ScheduledOk(e, x.k);
      assert w' == w + [e.scheduled[x.k]];
      assert w'[..|w|] == w;
    } else {
      assert Written(e, x) == [];
      assert w' == w;
    }
  }

  lemma DrainDecreases(topo: seq<nat>, s: Net, st: Step)
    requires NetInv(topo, s) && DrainStep(topo, s, st)
    ensures NetInv(topo, Next(topo, s, st))
    ensures 0 <= Measure(topo, Next(topo, s, st)) < Measure(topo, s)
  {
    var t, i, p := Next(topo, s, st), st.ep, topo[st.ep];
    BothWays(topo, s, i);
    OwnPotential(s[i], s[p], st.act);
    PeerPotential(s[i], s[p], st.act);
    KeepNetInv(topo, s, st);
    PotentialsStep(topo, s, t, i);
    SumTwoChanged(Potentials(topo, s), Potentials(topo, t), i, p);
    MeasureNonNegative(topo, t);
  }

  // A step of `i` moves the potential of `i` and of its peer only.
  lemma PotentialsStep(topo: seq<nat>, s: Net, t: Net, i: nat)
    requires Topology(topo) && |s| == |t| == |topo| && i < |s| && t == s[i := t[i]]
    ensures forall k :: 0 <= k < |s| && k != i && k != topo[i] ==> Potentials(topo, t)[k] == Potentials(topo, s)[k]
    ensures Potentials(topo, t)[i] == Potential(t[i], s[topo[i]])
    ensures Potentials(topo, t)[topo[i]] == Potential(s[topo[i]], t[i])
  {
    assert topo[topo[i]] == i;
    forall k | 0 <= k < |s| && k != i && k != topo[i] ensures Potentials(topo, t)[k] == Potentials(topo, s)[k] {
      assert topo[topo[k]] == k;
    }
  }

  lemma MeasureNonNegative(topo: seq<nat>, s: Net)
    requires NetInv(topo, s)
    ensures Measure(topo, s) >= 0
  {
    forall e | 0 <= e < |s| ensures Potentials(topo, s)[e] >= 0 {
      assert Link(s[e], s[topo[e]]);
      WeightPrefix(s[topo[e]].wire, s[e].read);
    }
    SumNonNegative(Potentials(topo, s));
  }

  // -- what draining leads to --

  ghost predicate DrainRun(topo: seq<nat>, s: Net, steps: seq<Step>, t: Net)
    requires Topology(topo) && |s| == |topo|
    decreases |steps|
  {
    if steps == [] then s == t
    else DrainStep(topo, s, steps[0]) && DrainRun(topo, Next(topo, s, steps[0]), steps[1..], t)
  }

  // However the draining goes, it takes at most `Measure` steps.
  lemma {:induction false} DrainBounded(topo: seq<nat>, s: Net, steps: seq<Step>, t: Net)
    requires NetInv(topo, s) && DrainRun(topo, s, steps, t)
    ensures NetInv(topo, t) && |steps| + Measure(topo, t) <= Measure(topo, s)
    decreases |steps|
  {
    if steps != [] {
      DrainDecreases(topo, s, steps[0]);
      DrainBounded(topo, Next(topo, s, steps[0]), steps[1..], t);
    }
  }

  lemma GaveUpStays(topo: seq<nat>, s: Net, st: Step, r: CallRef)
    requires NetInv(topo, s) && DrainStep(topo, s, st) && Issued(s, r)
    ensures Issued(Next(topo, s, st), r)
    ensures SameIdentity(s[r.ep].out[r.id], Next(topo, s, st)[r.ep].out[r.id])
    ensures GaveUp(s[r.ep], r.id) ==> GaveUp(Next(topo, s, st)[r.ep], r.id)
  {
    var o := s[r.ep].out[r.id];
    assert RecordOk(s[r.ep], r.id);
    QuitStep(o, r.id, if st.ep == r.ep then st.act else Break);
    IdentityStable(o, r.id, st.act);
  }

  lemma StaysUp(topo: seq<nat>, s: Net, st: Step)
    requires Topology(topo) && |s| == |topo| && AllUp(s) && DrainStep(topo, s, st)
    ensures AllUp(Next(topo, s, st))
  {}

  lemma ChainStays(topo: seq<nat>, s: Net, st: Step, path: seq<CallRef>)
    requires NetInv(topo, s) && DrainStep(topo, s, st) && Chain(topo, s, path)
    ensures Chain(topo, Next(topo, s, st), path)
  {
    GaveUpStays(topo, s, st, path[0]);
    forall i | 0 <= i < |path| - 1 ensures Spawned(topo, Next(topo, s, st), path[i], path[i + 1]) {
      assert Spawned(topo, s, path[i], path[i + 1]);
      GaveUpStays(topo, s, st, path[i]);
      GaveUpStays(topo, s, st, path[i + 1]);
    }
  }

  lemma {:induction false} DrainRunKeeps(topo: seq<nat>, s: Net, steps: seq<Step>, t: Net, path: seq<CallRef>)
    requires NetInv(topo, s) && AllUp(s) && Chain(topo, s, path) && GaveUp(s[path[0].ep], path[0].id)
    requires DrainRun(topo, s, steps, t)
    ensures NetInv(topo, t) && AllUp(t) && Chain(topo, t, path) && GaveUp(t[path[0].ep], path[0].id)
    decreases |steps|
  {
    if steps != [] {
      DrainDecreases(topo, s, steps[0]);
      ChainStays(topo, s, steps[0], path);
      GaveUpStays(topo, s, steps[0], path[0]);
      StaysUp(topo, s, steps[0]);
      DrainRunKeeps(topo, Next(topo, s, steps[0]), steps[1..], t, path);
    }
  }

  // Draining can always go on until quiescence.
  lemma {:induction false} DrainToEnd(topo: seq<nat>, s: Net) returns (steps: seq<Step>, t: Net)
    requires NetInv(topo, s) && AllUp(s)
    ensures DrainRun(topo, s, steps, t) && |t| == |topo| && Quiescent(topo, t)
    decreases Measure(topo, s)
  {
    if Quiescent(topo, s) {
      return [], s;
    }
    DrainEnabled(topo, s);
    var st :| DrainStep(topo, s, st);
    DrainDecreases(topo, s, st);
    StaysUp(topo, s, st);
    var rest;
    rest, t := DrainToEnd(topo, Next(topo, s, st));
    steps := [st] + rest;
    assert steps[1..] == rest;
  }

  // From any reachable state with its links up, once the head of a chain of forwarded calls is
  // abandoned: every way of draining takes at most `Measure` steps, and whenever it is through,
  // nothing in the chain is served any more.
  lemma {:induction false} CancelCompletes(topo: seq<nat>, s: Net, path: seq<CallRef>, steps: seq<Step>, t: Net)
    requires Reachable(topo, s) && |s| == |topo| && AllUp(s)
    requires Chain(topo, s, path) && LetGo(topo, s, path[0])
    requires DrainRun(topo, s, steps, t)
    ensures |steps| <= Measure(topo, s)
    ensures |t| == |topo| && AllUp(t)
    ensures Quiescent(topo, t) ==> forall i :: 0 <= i < |path| ==> Issued(t, path[i]) && !StillServed(topo, t, path[i])
  {
    ReachableInv(topo, s);
    CountMember(s[path[0].ep].wire, Cancel(path[0].id));
    assert CancelOk(s[path[0].ep], path[0].id);
    DrainBounded(topo, s, steps, t);
    MeasureNonNegative(topo, t);
    DrainRunKeeps(topo, s, steps, t, path);
    if Quiescent(topo, t) { CascadeFrom(topo, t, path); }
  }
}
