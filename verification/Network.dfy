// Endpoints joined in pairs by FIFO channels: the kernel holds one end of each link, a brick the
// other. Handler tasks originate calls on any endpoint of their own process, which is how a request
// reaches down a chain of bricks through `host.contract.call`.
module Network {
  import opened Prelude
  import opened JsonRpc
  import opened EndpointModel
  import opened EndpointInvariant
  import opened LinkInvariant

  type Net = seq<EP>

  datatype Step = Step(ep: nat, act: Action)

  // `topo[e]` is the other end of the link of `e`.
  predicate Topology(topo: seq<nat>) {
    forall e :: 0 <= e < |topo| ==> topo[e] < |topo| && topo[e] != e && topo[topo[e]] == e
  }

  predicate MadeBy(r: Outbound, t: TaskRef) {
    r.kind.Single? && r.kind.owner == Some(t)
  }

  // No call the task made is still being awaited.
  predicate Idle(s: Net, t: TaskRef) {
    forall e, id :: 0 <= e < |s| && id in s[e].out && MadeBy(s[e].out[id], t) ==> !s[e].out[id].kind.wait.Awaiting?
  }

  predicate RunningTask(s: Net, t: TaskRef) {
    t.ep < |s| && t.id in s[t.ep].tasks && s[t.ep].tasks[t.id].state.Running?
  }

  // A handler calls while it runs and ends only when no call of its own is awaited. Everything
  // else about handlers, callers, timeouts and the order of events is free.
  predicate LegalStep(topo: seq<nat>, s: Net, st: Step)
    requires Topology(topo) && |s| == |topo|
  {
    && st.ep < |s|
    && Legal(s[st.ep], s[topo[st.ep]], st.act)
    && (st.act.StartCall? && st.act.owner.Some? ==> RunningTask(s, st.act.owner.value))
    && (st.act.Server? && (st.act.t.Finish? || st.act.t.Unwind?) ==> Idle(s, TaskRef(st.ep, st.act.id)))
  }

  function Next(topo: seq<nat>, s: Net, st: Step): Net
    requires Topology(topo) && |s| == |topo| && LegalStep(topo, s, st)
  {
    s[st.ep := Apply(s[st.ep], st.act)]
  }

  ghost predicate Run(topo: seq<nat>, s: Net, steps: seq<Step>, t: Net)
    requires Topology(topo) && |s| == |topo|
    decreases |steps|
  {
    if steps == [] then s == t
    else LegalStep(topo, s, steps[0]) && Run(topo, Next(topo, s, steps[0]), steps[1..], t)
  }

  function InitNet(n: nat): Net {
    seq(n, i => INIT)
  }

  ghost predicate Reachable(topo: seq<nat>, s: Net) {
    Topology(topo) && exists steps :: Run(topo, InitNet(|topo|), steps, s)
  }

  // -- the invariant --

  // A call in progress belongs to a task in progress.
  ghost predicate OwnOk(s: Net, e: nat, id: nat) {
    e < |s| && id in s[e].out && s[e].out[id].kind.Single? && s[e].out[id].kind.owner.Some? ==>
      var t := s[e].out[id].kind.owner.value;
      && t.ep < |s|
      && t.id in s[t.ep].tasks
      && (s[t.ep].tasks[t.id].state.Ended? ==> !s[e].out[id].kind.wait.Awaiting?)
  }

  ghost predicate NetInv(topo: seq<nat>, s: Net) {
    && Topology(topo)
    && |s| == |topo|
    && (forall e :: 0 <= e < |s| ==> Good(s[e]))
    && (forall e :: 0 <= e < |s| ==> Link(s[e], s[topo[e]]))
    && (forall e: nat, id: nat :: OwnOk(s, e, id))
  }

  lemma InitNetInv(topo: seq<nat>)
    requires Topology(topo)
    ensures NetInv(topo, InitNet(|topo|))
  {
    InitLocal();
    assert Serving(INIT) && Link(INIT, INIT);
  }

  // What a step does to a task and to a call's record, as far as ownership goes.
  lemma OwnerStep(r: Outbound, id: nat, x: Action)
    ensures r.kind.Single? ==>
              var r' := RecordStep(r, id, x);
              r'.kind.Single? && r'.kind.owner == r.kind.owner &&
              (r'.kind.wait.Awaiting? ==> r.kind.wait.Awaiting?)
  {}

  lemma TaskEnds(t: Task, id: nat, x: Action)
    requires !t.state.Ended? && TaskStep(t, id, x).state.Ended?
    ensures x.Server? && x.id == id && (x.t.Finish? || x.t.Unwind?)
  {}

  lemma BothWays(topo: seq<nat>, s: Net, e: nat)
    requires NetInv(topo, s) && e < |s|
    ensures Link(s[e], s[topo[e]]) && Link(s[topo[e]], s[e])
  {
    assert topo[topo[e]] == e;
    assert Link(s[topo[e]], s[topo[topo[e]]]);
  }

  // A call with an owner was there before, or its owner is running now.
  lemma CallSide(topo: seq<nat>, s: Net, st: Step, e: nat, id: nat)
    requires NetInv(topo, s) && LegalStep(topo, s, st) && e < |s|
    requires id in Next(topo, s, st)[e].out && MadeBySome(Next(topo, s, st)[e].out[id])
    ensures var r' := Next(topo, s, st)[e].out[id];
            || (id in s[e].out && MadeBySome(s[e].out[id]) && s[e].out[id].kind.owner == r'.kind.owner
                && (r'.kind.wait.Awaiting? ==> s[e].out[id].kind.wait.Awaiting?))
            || RunningTask(s, r'.kind.owner.value)
  {
    assert RecordOk(s[e], id);
    if id in s[e].out {
      OwnerStep(s[e].out[id], id, st.act);
      IdentityStable(s[e].out[id], id, st.act);
    }
  }

  predicate MadeBySome(r: Outbound) {
    r.kind.Single? && r.kind.owner.Some?
  }

  // A task stays known, and if the step ends it, none of its calls was awaited.
  lemma TaskSide(topo: seq<nat>, s: Net, st: Step, t: TaskRef)
    requires NetInv(topo, s) && LegalStep(topo, s, st) && t.ep < |s| && t.id in s[t.ep].tasks
    ensures var s' := Next(topo, s, st);
            t.id in s'[t.ep].tasks &&
            (s'[t.ep].tasks[t.id].state.Ended? ==>
              s[t.ep].tasks[t.id].state.Ended? || (Idle(s, t) && !st.act.StartCall?))
  {
    BothWays(topo, s, st.ep);
    NovelStep(s[topo[st.ep]], s[st.ep], st.act);
    var k := s[t.ep].tasks[t.id];
    if t.ep == st.ep && !k.state.Ended? && TaskStep(k, t.id, st.act).state.Ended? { TaskEnds(k, t.id, st.act); }
  }

  lemma KeepOwn(topo: seq<nat>, s: Net, st: Step, e: nat, id: nat)
    requires NetInv(topo, s) && LegalStep(topo, s, st)
    ensures OwnOk(Next(topo, s, st), e, id)
  {
    var s' := Next(topo, s, st);
    if e < |s| && id in s'[e].out && MadeBySome(s'[e].out[id]) {
      CallSide(topo, s, st, e, id);
      assert OwnOk(s, e, id);
      var t := s'[e].out[id].kind.owner.value;
      TaskSide(topo, s, st, t);
      if RunningTask(s, t) && s'[t.ep].tasks[t.id].state.Ended? {
        assert id in s[e].out && MadeBy(s[e].out[id], t);
      }
    }
  }

  lemma KeepNetInv(topo: seq<nat>, s: Net, st: Step)
    requires NetInv(topo, s) && LegalStep(topo, s, st)
    ensures NetInv(topo, Next(topo, s, st))
  {
    var x, i, p := st.act, st.ep, topo[st.ep];
    var s' := Next(topo, s, st);
    BothWays(topo, s, i);
    NovelStep(s[p], s[i], x);
    KeepLocal(s[i], x);
    KeepServing(s[i], x);
    OriginStep(s[i], s[p], x);
    LinkInvariant.ServerStep(s[p], s[i], x);
    forall e: nat, id: nat ensures OwnOk(s', e, id) { KeepOwn(topo, s, st, e, id); }
    forall e | 0 <= e < |s| ensures Link(s'[e], s'[topo[e]]) {
      if e != i && e != p { assert topo[e] != i; }
    }
  }

  lemma {:induction false} RunKeepsInv(topo: seq<nat>, s: Net, steps: seq<Step>, t: Net)
    requires NetInv(topo, s) && Run(topo, s, steps, t)
    ensures NetInv(topo, t)
    decreases |steps|
  {
    if steps != [] {
      KeepNetInv(topo, s, steps[0]);
      RunKeepsInv(topo, Next(topo, s, steps[0]), steps[1..], t);
    }
  }

  lemma ReachableInv(topo: seq<nat>, s: Net)
    requires Reachable(topo, s)
    ensures NetInv(topo, s)
  {
    InitNetInv(topo);
    var steps :| Run(topo, InitNet(|topo|), steps, s);
    RunKeepsInv(topo, InitNet(|topo|), steps, s);
  }

  // -- correlation --

  // The peer ran its handler on exactly the request `id` of `e`, and the run ended with `o`.
  predicate AnsweredBy(topo: seq<nat>, s: Net, e: nat, id: nat, o: Outcome)
    requires Topology(topo) && |s| == |topo| && e < |s| && id in s[e].out
  {
    var p := s[topo[e]];
    && id in p.tasks
    && p.tasks[id].name == s[e].out[id].name
    && p.tasks[id].params == s[e].out[id].params
    && p.tasks[id].state == Ended(Some(o))
  }

  lemma FutureAnswered(topo: seq<nat>, s: Net, e: nat, id: nat)
    requires NetInv(topo, s) && e < |s| && id in s[e].out && s[e].out[id].fut.Done?
    ensures var o := s[e].out[id].fut.outcome;
            AnsweredBy(topo, s, e, id, o) || (o == Error(BRICK_UNAVAILABLE) && s[e].closed)
  {
    var a, b := s[e], s[topo[e]];
    var o := a.out[id].fut.outcome;
    assert AnswerOk(a, b, id) && ServedOk(a, b, id);
    if Response(id, o) in b.wire[..a.read] {
      CountMember(b.wire, Response(id, o));
      assert ReplyOk(b, id, o);
    }
  }

  // A call that returns gives the outcome of the peer's run on that call's method and params; only
  // `brick_unavailable`, from an endpoint whose stream ended, has no run behind it.
  lemma Correlation(topo: seq<nat>, s: Net, e: nat, id: nat, o: Outcome)
    requires Reachable(topo, s) && |s| == |topo| && e < |s| && id in s[e].out
    requires s[e].out[id].kind.Single? && s[e].out[id].kind.wait == Returned(o)
    ensures AnsweredBy(topo, s, e, id, o) || (o == Error(BRICK_UNAVAILABLE) && s[e].closed)
  {
    ReachableInv(topo, s);
    assert RecordOk(s[e], id);
    FutureAnswered(topo, s, e, id);
  }

  lemma {:induction false} CountTwice(w: seq<Msg>, i: nat, j: nat)
    requires i < j < |w| && w[i] == w[j]
    ensures Count(w, w[i]) >= 2
  {
    var n := |w| - 1;
    if j == n {
      CountMember(w[..n], w[i]);
      assert w[..n][i] in w[..n];
    } else {
      CountTwice(w[..n], i, j);
    }
  }

  // No served request is answered twice, and no request is cancelled twice.
  lemma AtMostOnce(topo: seq<nat>, s: Net, e: nat, i: nat, j: nat)
    requires Reachable(topo, s) && e < |s| && i < j < |s[e].wire|
    ensures s[e].wire[i].Response? && s[e].wire[j].Response? ==> s[e].wire[i].id != s[e].wire[j].id
    ensures s[e].wire[i].Cancel? && s[e].wire[j].Cancel? ==> s[e].wire[i].id != s[e].wire[j].id
    ensures s[e].wire[i].Request? && s[e].wire[j].Request? ==> s[e].wire[i].id != s[e].wire[j].id
  {
    ReachableInv(topo, s);
    var m, n := s[e].wire[i], s[e].wire[j];
    assert WireOk(s[e], i) && WireOk(s[e], j);
    CountMember(s[e].wire, m);
    CountMember(s[e].wire, n);
    if m.Response? && n.Response? {
      assert ReplyOk(s[e], m.id, m.outcome) && ReplyOk(s[e], n.id, n.outcome);
    }
    if m.Cancel? { assert CancelOk(s[e], m.id); }
    if m == n { CountTwice(s[e].wire, i, j); }
  }

  // -- streams --

  // What the consumer took is an in-order prefix of what the peer's handler emitted for that
  // request; once it has met the end mark of a stream whose result is a value, it took everything,
  // and the value is what that handler returned.
  lemma StreamDeltas(topo: seq<nat>, s: Net, e: nat, id: nat)
    requires Reachable(topo, s) && |s| == |topo| && e < |s| && id in s[e].out && s[e].out[id].kind.Streaming?
    ensures var st, p := s[e].out[id].kind.s, s[topo[e]];
            var emitted := if id in p.tasks then p.tasks[id].emitted else [];
            && st.taken <= emitted
            && (HasValue(st) && st.ended ==> st.taken == emitted && AnsweredBy(topo, s, e, id, st.result.value))
  {
    ReachableInv(topo, s);
    var a, b, r := s[e], s[topo[e]], s[e].out[id];
    assert RecordOk(a, id) && FlowOk(a, b, id) && TaskOk(b, id) && ServedOk(a, b, id);
    EmittedPrefix(b.wire, a.read, |b.wire|, id);
    assert b.wire[..|b.wire|] == b.wire;
    if id !in b.tasks { NoDeltas(b, id, |b.wire|); }
    if HasValue(r.kind.s) {
      FutureAnswered(topo, s, e, id);
      assert AnswerOk(a, b, id);
      AnsweredIsComplete(b, id, r.kind.s.result.value, a.read);
      if r.kind.s.ended { NoItems(r.kind.s.queue); }
    }
  }

  lemma {:induction false} NoItems(q: seq<Option<Params>>)
    requires AllNone(q)
    ensures Items(q) == []
  {
    if q != [] { NoItems(q[1..]); }
  }

  // -- cancellation --

  datatype CallRef = CallRef(ep: nat, id: nat)

  predicate Issued(s: Net, r: CallRef) {
    r.ep < |s| && r.id in s[r.ep].out
  }

  // The task that serves `parent` at its peer made the call `child`.
  predicate Spawned(topo: seq<nat>, s: Net, parent: CallRef, child: CallRef)
    requires |s| == |topo|
  {
    Issued(s, parent) && Issued(s, child) && MadeBy(s[child.ep].out[child.id], TaskRef(topo[parent.ep], parent.id))
  }

  // `path[0]`, a call its handler made, a call that one's handler made, and so on.
  predicate Chain(topo: seq<nat>, s: Net, path: seq<CallRef>)
    requires |s| == |topo|
  {
    && path != []
    && Issued(s, path[0])
    && (forall i :: 0 <= i < |path| - 1 ==> Spawned(topo, s, path[i], path[i + 1]))
  }

  predicate StillServed(topo: seq<nat>, s: Net, r: CallRef)
    requires |s| == |topo| && Topology(topo) && Issued(s, r)
  {
    LiveTask(s[topo[r.ep]], r.id)
  }

  // The originator timed out or was cancelled, or its `$/cancel` has arrived.
  predicate LetGo(topo: seq<nat>, s: Net, r: CallRef)
    requires |s| == |topo| && Topology(topo) && Issued(s, r)
  {
    GaveUp(s[r.ep], r.id) || Cancel(r.id) in s[r.ep].wire[..Min(s[topo[r.ep]].read, |s[r.ep].wire|)]
  }

  function Min(a: nat, b: nat): nat {
    if a <= b then a else b
  }

  predicate AllUp(s: Net) {
    forall e :: 0 <= e < |s| ==> !s[e].closed && !s[e].broken
  }

  // Channels and scheduled sends are empty, and every cancelled task has unwound.
  predicate Quiescent(topo: seq<nat>, s: Net)
    requires |s| == |topo| && Topology(topo)
  {
    forall e :: 0 <= e < |s| ==>
      && s[e].scheduled == []
      && s[e].read == |s[topo[e]].wire|
      && (forall id :: id in s[e].tasks && LiveTask(s[e], id) ==> !s[e].tasks[id].cancelReq)
  }

  // A call that is no longer awaited, or a request given up: at quiescence nobody serves it.
  lemma NotServed(topo: seq<nat>, s: Net, r: CallRef)
    requires NetInv(topo, s) && AllUp(s) && Quiescent(topo, s) && Issued(s, r)
    requires var o := s[r.ep].out[r.id]; Quit(o) || (o.kind.Single? && !o.kind.wait.Awaiting?)
    ensures !StillServed(topo, s, r)
  {
    var a, b, o := s[r.ep], s[topo[r.ep]], s[r.ep].out[r.id];
    assert topo[topo[r.ep]] == r.ep;
    assert RecordOk(a, r.id);
    if Quit(o) {
      assert CancelOk(a, r.id);
      CountMember(a.wire, Cancel(r.id));
      var k :| 0 <= k < |a.wire| && a.wire[k] == Cancel(r.id);
      assert HeardOk(a, b, k);
    } else {
      FutureAnswered(topo, s, r.ep, r.id);
    }
  }

  // The cascade: once a request is abandoned, at quiescence nothing in its subtree of forwarded
  // calls is still running, at any depth.
  lemma {:induction false} CancelCascade(topo: seq<nat>, s: Net, path: seq<CallRef>)
    requires Reachable(topo, s) && |s| == |topo| && AllUp(s) && Quiescent(topo, s)
    requires Chain(topo, s, path) && LetGo(topo, s, path[0])
    ensures forall i :: 0 <= i < |path| ==> Issued(s, path[i]) && !StillServed(topo, s, path[i])
  {
    ReachableInv(topo, s);
    var a, id := s[path[0].ep], path[0].id;
    CountMember(a.wire, Cancel(id));
    assert CancelOk(a, id);
    CascadeFrom(topo, s, path);
  }

  lemma {:induction false} CascadeFrom(topo: seq<nat>, s: Net, path: seq<CallRef>)
    requires NetInv(topo, s) && AllUp(s) && Quiescent(topo, s) && Chain(topo, s, path)
    requires var o := s[path[0].ep].out[path[0].id]; Quit(o) || (o.kind.Single? && !o.kind.wait.Awaiting?)
    ensures forall i :: 0 <= i < |path| ==> Issued(s, path[i]) && !StillServed(topo, s, path[i])
    decreases |path|
  {
    NotServed(topo, s, path[0]);
    if |path| > 1 {
      assert Spawned(topo, s, path[0], path[1]);
      assert OwnOk(s, path[1].ep, path[1].id);
      assert forall i :: 0 <= i < |path[1..]| - 1 ==> Spawned(topo, s, path[1..][i], path[1..][i + 1]) by {
        forall i | 0 <= i < |path[1..]| - 1 ensures Spawned(topo, s, path[1..][i], path[1..][i + 1]) {
          assert Spawned(topo, s, path[i + 1], path[i + 2]);
        }
      }
      CascadeFrom(topo, s, path[1..]);
      forall i | 0 <= i < |path| ensures Issued(s, path[i]) && !StillServed(topo, s, path[i]) {
        if i > 0 { assert path[i] == path[1..][i - 1]; }
      }
    }
  }
}
