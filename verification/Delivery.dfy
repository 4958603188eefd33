// The other half of correlation: no answer is lost while the links are up.
module Delivery {
  import opened Prelude
  import opened JsonRpc
  import opened EndpointModel
  import opened EndpointInvariant
  import opened LinkInvariant
  import opened Network

  // A future that is still pending is registered, and no answer to its request has been read.
  ghost predicate Expecting(a: EP, b: EP, id: nat)
    requires a.read <= |b.wire|
  {
    id in a.out && a.out[id].fut.Pending? ==>
      a.out[id].pending && forall o :: Response(id, o) !in b.wire[..a.read]
  }

  // A task that ended with an answer has handed it over for sending.
  ghost predicate Replied(e: EP, id: nat) {
    !e.broken && id in e.tasks && e.tasks[id].state.Ended? && e.tasks[id].state.reply.Some? ==>
      Sends(e, Response(id, e.tasks[id].state.reply.value)) >= 1
  }

  lemma PendingStep(r: Outbound, id: nat, x: Action)
    requires RecordStep(r, id, x).fut.Pending? && (r.fut.Pending? ==> r.pending)
    ensures r.fut.Pending? && RecordStep(r, id, x).pending && !(x.Dispatch? && x.msg.Response? && x.msg.id == id)
  {}

  // An answer only goes to a request there is.
  lemma AnswerHasRequest(a: EP, b: EP, id: nat, o: Outcome)
    requires Good(b) && Link(a, b) && Response(id, o) in b.wire
    ensures id in a.out
  {
    CountMember(b.wire, Response(id, o));
    assert ReplyOk(b, id, o) && ServedOk(a, b, id);
  }

  lemma OriginExpecting(a: EP, b: EP, x: Action, id: nat)
    requires Good(a) && Good(b) && Link(a, b) && Legal(a, b, x) && Expecting(a, b, id)
    ensures Apply(a, x).read <= |b.wire| && Expecting(Apply(a, x), b, id)
  {
    var a' := Apply(a, x);
    assert RecordOk(a, id);
    if id in a'.out && a'.out[id].fut.Pending? {
      if id in a.out {
        assert a'.out[id] == RecordStep(a.out[id], id, x);
        PendingStep(a.out[id], id, x);
      } else {
        assert a'.out[id].pending;
      }
      forall o ensures Response(id, o) !in b.wire[..a'.read] {
        if id !in a.out {
          if Response(id, o) in b.wire { AnswerHasRequest(a, b, id, o); }
        } else if x.Dispatch? {
          assert b.wire[..a.read + 1] == b.wire[..a.read] + [x.msg];
        }
      }
    }
  }

  lemma TaskEnding(t: Task, id: nat, x: Action)
    requires TaskStep(t, id, x).state.Ended? && TaskStep(t, id, x).state != t.state
    ensures x.Server? && x.id == id && (x.t.Finish? || x.t.Unwind?)
    ensures TaskStep(t, id, x).state.reply ==
            if x.t.Finish? then Some(x.t.outcome)
            else if t.state.Created? then None else Some(Error(REQUEST_CANCELLED))
  {}

  lemma ServerReplied(e: EP, x: Action, id: nat)
    requires Enabled(e, x) && Novel(e, x) && Replied(e, id)
    ensures Replied(Apply(e, x), id)
  {
    var e' := Apply(e, x);
    if !e'.broken && id in e'.tasks && e'.tasks[id].state.Ended? && e'.tasks[id].state.reply.Some? {
      var o := e'.tasks[id].state.reply.value;
      SendsStep(e, x, Response(id, o));
      if id in e.tasks && e'.tasks[id].state != e.tasks[id].state { TaskEnding(e.tasks[id], id, x); }
    }
  }

  // A stream nobody cancelled waits for its future, or has what the future holds, or timed out.
  ghost predicate Settling(e: EP, id: nat) {
    !e.closed && id in e.out && e.out[id].kind.Streaming? && e.out[id].sent && !e.out[id].kind.s.cancelled ==>
      StreamWaits(e.out[id])
  }

  ghost predicate StreamWaits(r: Outbound)
    requires r.kind.Streaming?
  {
    var s := r.kind.s;
    match s.result
    case None => s.settling && !r.fut.Cancelled?
    case Some(o) => !s.settling && (o == Error(TIMEOUT) || r.fut == Done(o))
  }

  lemma StreamStep(r: Outbound, id: nat, x: Action)
    requires r.kind.Streaming? && StreamWaits(r) && !x.ReadEnd? && !x.Aclose?
    ensures RecordStep(r, id, x).kind.Streaming?
    ensures !RecordStep(r, id, x).kind.s.cancelled ==> StreamWaits(RecordStep(r, id, x))
  {}

  lemma KeepSettling(e: EP, x: Action, id: nat)
    requires Enabled(e, x) && RecordOk(e, id) && Settling(e, id)
    ensures Settling(Apply(e, x), id)
  {
    var e' := Apply(e, x);
    if id in e.out {
      assert e'.out[id] == RecordStep(e.out[id], id, x);
      IdentityStable(e.out[id], id, x);
      if !e'.closed && e.out[id].kind.Streaming? && !e'.out[id].kind.s.cancelled {
        CancelledStays(e.out[id], id, x);
        if e.out[id].sent { StreamStep(e.out[id], id, x); }
      }
    }
  }

  lemma CancelledStays(r: Outbound, id: nat, x: Action)
    requires r.kind.Streaming?
    ensures RecordStep(r, id, x).kind.Streaming?
    ensures r.kind.s.cancelled ==> RecordStep(r, id, x).kind.s.cancelled
  {}

  ghost predicate SettlingAt(s: Net, e: nat, id: nat) {
    e < |s| ==> Settling(s[e], id)
  }

  ghost predicate Delivering(topo: seq<nat>, s: Net) {
    && NetInv(topo, s)
    && (forall e: nat, id: nat :: ExpectingAt(topo, s, e, id))
    && (forall e: nat, id: nat :: RepliedAt(s, e, id))
    && (forall e: nat, id: nat :: SettlingAt(s, e, id))
  }

  ghost predicate ExpectingAt(topo: seq<nat>, s: Net, e: nat, id: nat)
    requires NetInv(topo, s)
  {
    e < |s| ==> (assert Link(s[e], s[topo[e]]); Expecting(s[e], s[topo[e]], id))
  }

  ghost predicate RepliedAt(s: Net, e: nat, id: nat) {
    e < |s| ==> Replied(s[e], id)
  }

  lemma StepExpecting(topo: seq<nat>, s: Net, st: Step, e: nat, id: nat)
    requires Delivering(topo, s) && LegalStep(topo, s, st) && NetInv(topo, Next(topo, s, st))
    ensures ExpectingAt(topo, Next(topo, s, st), e, id)
  {
    if e < |s| {
      assert ExpectingAt(topo, s, e, id) && Link(s[e], s[topo[e]]);
      if e == st.ep {
        OriginExpecting(s[e], s[topo[e]], st.act, id);
      } else if topo[e] == st.ep {
        assert Apply(s[topo[e]], st.act).wire[..s[e].read] == s[topo[e]].wire[..s[e].read];
      }
    }
  }

  lemma KeepDelivering(topo: seq<nat>, s: Net, st: Step)
    requires Delivering(topo, s) && LegalStep(topo, s, st)
    ensures Delivering(topo, Next(topo, s, st))
  {
    KeepNetInv(topo, s, st);
    forall e: nat, id: nat ensures ExpectingAt(topo, Next(topo, s, st), e, id) { StepExpecting(topo, s, st, e, id); }
    BothWays(topo, s, st.ep);
    NovelStep(s[topo[st.ep]], s[st.ep], st.act);
    forall e: nat, id: nat ensures RepliedAt(Next(topo, s, st), e, id) {
      assert RepliedAt(s, e, id);
      if e == st.ep { ServerReplied(s[e], st.act, id); }
    }
    forall e: nat, id: nat ensures SettlingAt(Next(topo, s, st), e, id) {
      assert SettlingAt(s, e, id);
      if e == st.ep {
        assert RecordOk(s[e], id);
        KeepSettling(s[e], st.act, id);
      }
    }
  }

  lemma {:induction false} RunDelivering(topo: seq<nat>, s: Net, steps: seq<Step>, t: Net)
    requires Delivering(topo, s) && Run(topo, s, steps, t)
    ensures Delivering(topo, t)
    decreases |steps|
  {
    if steps != [] {
      KeepDelivering(topo, s, steps[0]);
      RunDelivering(topo, Next(topo, s, steps[0]), steps[1..], t);
    }
  }

  lemma ReachableDelivering(topo: seq<nat>, s: Net)
    requires Reachable(topo, s)
    ensures Delivering(topo, s)
  {
    InitNetInv(topo);
    var steps :| Run(topo, InitNet(|topo|), steps, s);
    RunDelivering(topo, InitNet(|topo|), steps, s);
  }

  // Once everything sent has been read, a request whose handler ended with an answer has that answer,
  // unless its caller had given it up; and a call that still waits can return it.
  lemma AnswersArrive(topo: seq<nat>, s: Net, e: nat, id: nat, o: Outcome)
    requires Reachable(topo, s) && |s| == |topo| && AllUp(s) && Quiescent(topo, s)
    requires e < |s| && id in s[e].out && id in s[topo[e]].tasks && s[topo[e]].tasks[id].state == Ended(Some(o))
    ensures s[e].out[id].fut == Done(o) || s[e].out[id].fut.Cancelled?
    ensures s[e].out[id].kind.Single? && s[e].out[id].kind.wait.Awaiting? ==>
      s[e].out[id].fut == Done(o) && Enabled(s[e], Client(id, CallReturn))
  {
    ReachableDelivering(topo, s);
    var a, b := s[e], s[topo[e]];
    assert RepliedAt(s, topo[e], id) && ExpectingAt(topo, s, e, id) && RecordOk(a, id);
    AnswerRead(a, b, id, o);
    if a.out[id].fut.Done? { FutureAnswered(topo, s, e, id); }
  }

  lemma AnswerRead(a: EP, b: EP, id: nat, o: Outcome)
    requires a.read == |b.wire| && b.scheduled == [] && !b.broken
    requires Expecting(a, b, id) && Replied(b, id)
    requires id in a.out && id in b.tasks && b.tasks[id].state == Ended(Some(o))
    ensures !a.out[id].fut.Pending?
  {
    CountMember(b.wire, Response(id, o));
    assert b.wire[..a.read] == b.wire;
  }

  // And no delta: a stream that its consumer did not cancel and that did not time out, whose handler
  // ended with a value, has got everything the handler emitted, and has that value or can take it.
  lemma DeltasArrive(topo: seq<nat>, s: Net, e: nat, id: nat, v: Payload)
    requires Reachable(topo, s) && |s| == |topo| && AllUp(s) && Quiescent(topo, s)
    requires e < |s| && id in s[e].out && s[e].out[id].kind.Streaming?
    requires id in s[topo[e]].tasks && s[topo[e]].tasks[id].state == Ended(Some(Value(v)))
    requires var st := s[e].out[id].kind.s; !st.cancelled && st.result != Some(Error(TIMEOUT))
    ensures Got(s[e].out[id].kind.s) == s[topo[e]].tasks[id].emitted
    ensures s[e].out[id].fut == Done(Value(v))
    ensures s[e].out[id].kind.s.result == Some(Value(v)) || Enabled(s[e], Client(id, Settle))
  {
    AnswersArrive(topo, s, e, id, Value(v));
    ReachableDelivering(topo, s);
    BothEnds(topo, s, e, id);
    StreamDelivered(s[e], s[topo[e]], id, v);
  }

  lemma BothEnds(topo: seq<nat>, s: Net, e: nat, id: nat)
    requires Delivering(topo, s) && e < |s|
    ensures s[e].read <= |s[topo[e]].wire|
    ensures RecordOk(s[e], id) && FlowOk(s[e], s[topo[e]], id) && TaskOk(s[topo[e]], id)
    ensures ServedOk(s[e], s[topo[e]], id) && Settling(s[e], id)
  {
    assert SettlingAt(s, e, id);
    assert Good(s[e]) && Good(s[topo[e]]) && Link(s[e], s[topo[e]]);
  }

  lemma StreamDelivered(a: EP, b: EP, id: nat, v: Payload)
    requires a.read == |b.wire| && RecordOk(a, id) && FlowOk(a, b, id) && TaskOk(b, id) && ServedOk(a, b, id)
    requires Settling(a, id) && !a.closed
    requires id in a.out && a.out[id].kind.Streaming? && id in b.tasks
    requires a.out[id].fut == Done(Value(v)) || a.out[id].fut.Cancelled?
    requires var st := a.out[id].kind.s; !st.cancelled && st.result != Some(Error(TIMEOUT))
    ensures Got(a.out[id].kind.s) == b.tasks[id].emitted
    ensures a.out[id].fut == Done(Value(v))
    ensures a.out[id].kind.s.result == Some(Value(v)) || Enabled(a, Client(id, Settle))
  {
    assert b.wire[..a.read] == b.wire;
    assert StreamWaits(a.out[id]);
  }
}
