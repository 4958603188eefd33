// What every step keeps on a link: two endpoints joined by their channels.
module LinkInvariant {
  import opened Prelude
  import opened JsonRpc
  import opened EndpointModel
  import opened EndpointInvariant

  // The deltas for `id` among the messages `w`, in order.
  function Emitted(w: seq<Msg>, id: nat): seq<Params> {
    if w == [] then []
    else
      var m := w[|w| - 1];
      Emitted(w[..|w| - 1], id) + (if m.Delta? && m.id == id then [m.params] else [])
  }

  // The deltas in a delta queue, end marks skipped.
  function Items(q: seq<Option<Params>>): seq<Params> {
    if q == [] then []
    else (if q[0].Some? then [q[0].value] else []) + Items(q[1..])
  }

  // Everything that reached a stream: what its consumer took, then what is still queued.
  function Got(s: Strm): seq<Params> {
    s.taken + Items(s.queue)
  }

  lemma {:induction false} EmittedAppend(w: seq<Msg>, x: Msg, id: nat)
    ensures Emitted(w + [x], id) == Emitted(w, id) + if x.Delta? && x.id == id then [x.params] else []
  {
    assert (w + [x])[..|w|] == w;
  }

  lemma {:induction false} EmittedPrefix(w: seq<Msg>, j: nat, k: nat, id: nat)
    requires j <= k <= |w|
    ensures Emitted(w[..j], id) <= Emitted(w[..k], id)
  {
    if j < k {
      EmittedPrefix(w, j, k - 1, id);
      assert w[..k] == w[..k-1] + [w[k-1]];
      EmittedAppend(w[..k-1], w[k-1], id);
    }
  }

  lemma {:induction false} ItemsAppend(q: seq<Option<Params>>, x: Option<Params>)
    ensures Items(q + [x]) == Items(q) + if x.Some? then [x.value] else []
  {
    if q == [] {
      assert q + [x] == [x];
    } else {
      var rest, more := Items(q[1..]), if x.Some? then [x.value] else [];
      ItemsAppend(q[1..], x);
      assert (q + [x])[1..] == q[1..] + [x] && (q + [x])[0] == q[0];
      assert q[0].Some? ==> [q[0].value] + (rest + more) == ([q[0].value] + rest) + more;
    }
  }

  ghost predicate TaskOk(e: EP, id: nat) {
    id in e.tasks ==>
      && (!e.tasks[id].state.Ended? ==> e.tasks[id].listed)
      && e.tasks[id].emitted == Emitted(e.wire, id)
  }

  // At most one answer per served request, and only by the end of its task.
  ghost predicate ReplyOk(e: EP, id: nat, o: Outcome) {
    && Sends(e, Response(id, o)) <= 1
    && (Sends(e, Response(id, o)) > 0 ==> id in e.tasks && e.tasks[id].state == Ended(Some(o)))
  }

  // No delta stands behind its request's answer.
  ghost predicate DeltaOk(e: EP, k: nat) {
    k < |e.wire| ==>
      match e.wire[k]
      case Delta(id, _) => id in e.tasks
      case Response(id, _) => Emitted(e.wire[..k], id) == Emitted(e.wire, id)
      case _ => true
  }

  ghost predicate Serving(e: EP) {
    && (forall id: nat :: TaskOk(e, id))
    && (forall id: nat, o: Outcome :: ReplyOk(e, id, o))
    && (forall k: nat :: DeltaOk(e, k))
  }

  // A request is served once.
  predicate Novel(e: EP, a: Action) {
    a.Dispatch? && a.msg.Request? ==> a.msg.id !in e.tasks
  }

  lemma {:induction false} WireStep(e: EP, a: Action, id: nat)
    requires Enabled(e, a) && (a.Flush? ==> ScheduledOk(e, a.k)) && (a.Server? && a.t.Emit? ==> !e.broken)
    ensures Emitted(Apply(e, a).wire, id)
         == Emitted(e.wire, id) + if a.Server? && a.id == id && a.t.Emit? then [a.t.params] else []
  {
    var w := Written(e, a);
    assert |w| <= 1;
    if w == [] { assert e.wire + w == e.wire; } else { EmittedAppend(e.wire, w[0], id); }
  }

  lemma KeepTask(e: EP, a: Action, id: nat)
    requires TaskOk(e, id) && Local(e) && (forall k: nat :: DeltaOk(e, k)) && Enabled(e, a) && Novel(e, a)
    ensures TaskOk(Apply(e, a), id)
  {
    WireStep(e, a, id);
    if id !in e.tasks { NoDeltas(e, id, |e.wire|); }
  }

  // Nothing is emitted for a request that never arrived.
  lemma {:induction false} NoDeltas(e: EP, id: nat, n: nat)
    requires id !in e.tasks && n <= |e.wire| && (forall k: nat :: DeltaOk(e, k))
    ensures Emitted(e.wire[..n], id) == []
    ensures n == |e.wire| ==> Emitted(e.wire, id) == []
  {
    if n > 0 {
      NoDeltas(e, id, n - 1);
      assert e.wire[..n][..n-1] == e.wire[..n-1];
      assert DeltaOk(e, n - 1);
    }
    assert e.wire[..|e.wire|] == e.wire;
  }

  // Only the end of a task hands over an answer.
  lemma AnswerEnds(e: EP, a: Action, id: nat, o: Outcome)
    requires Enabled(e, a) && Added(e, a) == Some(Response(id, o))
    ensures id in e.tasks && !e.tasks[id].state.Ended?
    ensures id in Apply(e, a).tasks && Apply(e, a).tasks[id].state == Ended(Some(o))
  {}

  lemma EndedStays(e: EP, a: Action, id: nat)
    requires Enabled(e, a) && Novel(e, a) && id in e.tasks && e.tasks[id].state.Ended?
    ensures id in Apply(e, a).tasks && Apply(e, a).tasks[id].state == e.tasks[id].state
  {}

  lemma KeepReply(e: EP, a: Action, id: nat, o: Outcome)
    requires ReplyOk(e, id, o) && Enabled(e, a) && Novel(e, a)
    ensures ReplyOk(Apply(e, a), id, o)
  {
    SendsStep(e, a, Response(id, o));
    if Added(e, a) == Some(Response(id, o)) {
      AnswerEnds(e, a, id, o);
    } else if Sends(e, Response(id, o)) > 0 {
      EndedStays(e, a, id);
    }
  }

  lemma KeepOldDelta(e: EP, a: Action, k: nat)
    requires Local(e) && Serving(e) && Enabled(e, a) && Novel(e, a) && k < |e.wire|
    ensures DeltaOk(Apply(e, a), k)
  {
    var e' := Apply(e, a);
    assert DeltaOk(e, k) && e'.wire[k] == e.wire[k] && e'.wire[..k] == e.wire[..k];
    if e.wire[k].Response? {
      var id, o := e.wire[k].id, e.wire[k].outcome;
      WireStep(e, a, id);
      CountMember(e.wire, e.wire[k]);
      assert ReplyOk(e, id, o);
    }
  }

  lemma NewDelta(e: EP, a: Action)
    requires Local(e) && Enabled(e, a) && Written(e, a) != []
    ensures DeltaOk(Apply(e, a), |e.wire|)
  {
    var e', m := Apply(e, a), Written(e, a)[0];
    assert a.Flush? ==> ScheduledOk(e, a.k);
    assert e'.wire == e.wire + [m] && e'.wire[|e.wire|] == m && e'.wire[..|e.wire|] == e.wire;
    if m.Response? { EmittedAppend(e.wire, m, m.id); }
  }

  lemma KeepDelta(e: EP, a: Action, k: nat)
    requires Local(e) && Serving(e) && Enabled(e, a) && Novel(e, a)
    ensures DeltaOk(Apply(e, a), k)
  {
    if k < |e.wire| {
      KeepOldDelta(e, a, k);
    } else if k == |e.wire| && Written(e, a) != [] {
      NewDelta(e, a);
    }
  }

  lemma KeepServing(e: EP, a: Action)
    requires Local(e) && Serving(e) && Enabled(e, a) && Novel(e, a)
    ensures Serving(Apply(e, a))
  {
    forall id: nat ensures TaskOk(Apply(e, a), id) { KeepTask(e, a, id); }
    forall id: nat, o: Outcome ensures ReplyOk(Apply(e, a), id, o) { KeepReply(e, a, id, o); }
    forall k: nat ensures DeltaOk(Apply(e, a), k) { KeepDelta(e, a, k); }
  }

  // What `b` serves is exactly what it has read of `a`'s requests.
  ghost predicate ServedOk(a: EP, b: EP, id: nat) {
    && (id in b.tasks <==> id in a.out && a.out[id].sent && a.out[id].at < b.read)
    && (id in b.tasks ==> b.tasks[id].name == a.out[id].name && b.tasks[id].params == a.out[id].params)
  }

  // A `$/cancel` that arrived found its task and marked it, unless the task was over.
  ghost predicate HeardOk(a: EP, b: EP, k: nat) {
    k < b.read && k < |a.wire| && a.wire[k].Cancel? ==>
      var id := a.wire[k].id;
      id in b.tasks && (b.tasks[id].cancelReq || b.tasks[id].state.Ended?)
  }

  // What a future holds came in the peer's answer to that request, or from the end of the stream.
  ghost predicate AnswerOk(a: EP, b: EP, id: nat)
    requires a.read <= |b.wire|
  {
    id in a.out && a.out[id].fut.Done? ==>
      var o := a.out[id].fut.outcome;
      (o == Error(BRICK_UNAVAILABLE) && a.closed) || Response(id, o) in b.wire[..a.read]
  }

  predicate HasValue(s: Strm) {
    s.result.Some? && s.result.value.Value?
  }

  // Of the deltas `all` that left for a stream, a prefix reached it, and all of them did while it is
  // still registered or once it ended with a value.
  ghost predicate Flow(s: Strm, all: seq<Params>) {
    Got(s) <= all && (s.listed || HasValue(s) ==> Got(s) == all)
  }

  ghost predicate FlowOk(a: EP, b: EP, id: nat)
    requires a.read <= |b.wire|
  {
    id in a.out && a.out[id].kind.Streaming? ==> Flow(a.out[id].kind.s, Emitted(b.wire[..a.read], id))
  }

  // `a` originates, `b` serves.
  ghost predicate Link(a: EP, b: EP) {
    && b.read <= |a.wire|
    && a.read <= |b.wire|
    && (forall id: nat :: ServedOk(a, b, id))
    && (forall k: nat :: HeardOk(a, b, k))
    && (forall id: nat :: AnswerOk(a, b, id))
    && (forall id: nat :: FlowOk(a, b, id))
  }

  ghost predicate Good(e: EP) {
    Local(e) && Serving(e)
  }

  // A step of an endpoint takes the next message from its peer, if it takes one.
  predicate Legal(e: EP, peer: EP, a: Action) {
    Enabled(e, a) && (a.Dispatch? ==> e.read < |peer.wire| && a.msg == peer.wire[e.read])
  }

  lemma NovelStep(a: EP, b: EP, x: Action)
    requires Good(a) && Link(a, b) && Legal(b, a, x)
    ensures Novel(b, x)
  {
    if x.Dispatch? && x.msg.Request? {
      assert WireOk(a, b.read) && ServedOk(a, b, x.msg.id);
    }
  }

  // -- a step of the originator --

  lemma OriginServed(a: EP, b: EP, x: Action, id: nat)
    requires RecordOk(a, id) && ServedOk(a, b, id) && b.read <= |a.wire| && Enabled(a, x)
    ensures ServedOk(Apply(a, x), b, id)
  {
    if id in a.out { IdentityStable(a.out[id], id, x); }
  }

  // A future is filled by the answer to its own request or by the end of the peer's stream.
  lemma FutureStep(r: Outbound, id: nat, x: Action)
    requires RecordStep(r, id, x).fut.Done? && RecordStep(r, id, x).fut != r.fut
    ensures r.fut.Pending?
    ensures || (x == Dispatch(Response(id, RecordStep(r, id, x).fut.outcome)))
            || ((x.ReadEnd? || x.Aclose?) && RecordStep(r, id, x).fut.outcome == Error(BRICK_UNAVAILABLE))
  {}

  lemma OriginAnswer(a: EP, b: EP, x: Action, id: nat)
    requires Good(a) && Link(a, b) && Legal(a, b, x)
    ensures AnswerOk(Apply(a, x), b, id)
  {
    var a' := Apply(a, x);
    assert AnswerOk(a, b, id) && RecordOk(a, id);
    if x.Dispatch? { assert b.wire[..a.read + 1] == b.wire[..a.read] + [b.wire[a.read]]; }
    if id in a.out && a'.out[id].fut.Done? && a'.out[id].fut != a.out[id].fut { FutureStep(a.out[id], id, x); }
  }

  lemma GotQueue(s: Strm, o: Outcome)
    ensures Got(FinishStream(s, o)) == Got(s)
    ensures s.queue != [] ==> Got(TakeItem(s)) == Got(s)
  {
    var q := s.queue;
    ItemsAppend(q, None);
    if q != [] && q[0].Some? { assert s.taken + Items(q) == (s.taken + [q[0].value]) + Items(q[1..]); }
  }

  // The delta for stream `id` that a step brings.
  function Brought(x: Action, id: nat): seq<Params> {
    if x.Dispatch? && x.msg.Delta? && x.msg.id == id then [x.msg.params] else []
  }

  lemma FlowClient(r: Outbound, c: ClientAct, all: seq<Params>)
    requires StreamOk(r) && r.kind.Streaming? && Flow(r.kind.s, all) && ClientReady(r, c)
    ensures ClientRecord(r, c).kind.Streaming? && Flow(ClientRecord(r, c).kind.s, all)
  {
    GotQueue(r.kind.s, Error(TIMEOUT));
    GotQueue(r.kind.s, Error(REQUEST_CANCELLED));
    if c.Settle? && r.fut.Done? { GotQueue(r.kind.s, r.fut.outcome); }
  }

  lemma FlowDelta(r: Outbound, params: Params, all: seq<Params>)
    requires r.kind.Streaming? && Flow(r.kind.s, all) && !HasValue(r.kind.s)
    ensures PushDelta(r, params).kind.Streaming? && Flow(PushDelta(r, params).kind.s, all + [params])
  {
    var s := r.kind.s;
    ItemsAppend(s.queue, Some(params));
    if s.listed { assert s.taken + (Items(s.queue) + [params]) == all + [params]; }
  }

  lemma FlowFail(r: Outbound, all: seq<Params>)
    requires r.kind.Streaming? && Flow(r.kind.s, all)
    ensures Fail(r).kind.Streaming? && Flow(Fail(r).kind.s, all)
  {
    GotQueue(r.kind.s, Error(BRICK_UNAVAILABLE));
  }

  lemma FlowStep(r: Outbound, id: nat, x: Action, all: seq<Params>)
    requires StreamOk(r) && r.kind.Streaming? && Flow(r.kind.s, all)
    requires HasValue(r.kind.s) ==> Brought(x, id) == []
    ensures RecordStep(r, id, x).kind.Streaming? && Flow(RecordStep(r, id, x).kind.s, all + Brought(x, id))
  {
    assert all + [] == all;
    if x.Client? && x.id == id && ClientReady(r, x.c) {
      FlowClient(r, x.c, all);
    } else if x.ReadEnd? || x.Aclose? {
      FlowFail(r, all);
    } else if Brought(x, id) != [] {
      FlowDelta(r, x.msg.params, all);
    } else {
      assert RecordStep(r, id, x).kind == r.kind;
    }
  }

  // Once a request is answered, its deltas are complete.
  lemma {:induction false} AnsweredIsComplete(b: EP, id: nat, o: Outcome, n: nat)
    requires Serving(b) && n <= |b.wire| && Response(id, o) in b.wire[..n]
    ensures Emitted(b.wire[..n], id) == Emitted(b.wire, id)
  {
    var k :| 0 <= k < n && b.wire[..n][k] == Response(id, o);
    assert DeltaOk(b, k);
    EmittedPrefix(b.wire, k, n, id);
    EmittedPrefix(b.wire, n, |b.wire|, id);
    assert b.wire[..|b.wire|] == b.wire;
  }

  lemma {:induction false} EmittedStep(a: EP, b: EP, x: Action, id: nat)
    requires a.read <= |b.wire| && Legal(a, b, x)
    ensures Apply(a, x).read <= |b.wire|
    ensures Emitted(b.wire[..Apply(a, x).read], id) == Emitted(b.wire[..a.read], id) + Brought(x, id)
    ensures Emitted(b.wire[..Apply(a, x).read], id) <= Emitted(b.wire, id)
  {
    if x.Dispatch? {
      assert b.wire[..a.read + 1] == b.wire[..a.read] + [x.msg];
      EmittedAppend(b.wire[..a.read], x.msg, id);
    }
    EmittedPrefix(b.wire, Apply(a, x).read, |b.wire|, id);
    assert b.wire[..|b.wire|] == b.wire;
  }

  // A stream just opened has no deltas yet.
  lemma FreshFlow(a: EP, b: EP, x: Action, id: nat)
    requires Good(a) && Good(b) && Link(a, b) && Legal(a, b, x) && id !in a.out
    ensures FlowOk(Apply(a, x), b, id)
  {
    assert ServedOk(a, b, id);
    NoDeltas(b, id, |b.wire|);
    EmittedStep(a, b, x, id);
  }

  lemma OriginFlow(a: EP, b: EP, x: Action, id: nat)
    requires Good(a) && Good(b) && Link(a, b) && Legal(a, b, x) && id in a.out
    ensures FlowOk(Apply(a, x), b, id)
  {
    var r := a.out[id];
    assert FlowOk(a, b, id) && RecordOk(a, id) && AnswerOk(a, b, id);
    EmittedStep(a, b, x, id);
    IdentityStable(r, id, x);
    assert Apply(a, x).out[id] == RecordStep(r, id, x);
    if r.kind.Streaming? {
      if HasValue(r.kind.s) { AnsweredIsComplete(b, id, r.kind.s.result.value, a.read); }
      FlowStep(r, id, x, Emitted(b.wire[..a.read], id));
    }
  }

  lemma OriginStep(a: EP, b: EP, x: Action)
    requires Good(a) && Good(b) && Link(a, b) && Legal(a, b, x)
    ensures Link(Apply(a, x), b)
  {
    var a' := Apply(a, x);
    forall id: nat ensures ServedOk(a', b, id) && AnswerOk(a', b, id) && FlowOk(a', b, id) {
      assert RecordOk(a, id) && ServedOk(a, b, id);
      OriginServed(a, b, x, id);
      OriginAnswer(a, b, x, id);
      if id in a.out { OriginFlow(a, b, x, id); } else { FreshFlow(a, b, x, id); }
    }
    forall k: nat ensures HeardOk(a', b, k) { assert HeardOk(a, b, k); }
  }

  // -- a step of the server --

  lemma ServerServed(a: EP, b: EP, x: Action, id: nat)
    requires Good(a) && Link(a, b) && Legal(b, a, x)
    ensures ServedOk(a, Apply(b, x), id)
  {
    assert ServedOk(a, b, id) && RecordOk(a, id) && WireOk(a, b.read);
  }

  lemma ServerHeard(a: EP, b: EP, x: Action, k: nat)
    requires Good(a) && Good(b) && Link(a, b) && Legal(b, a, x) && Novel(b, x)
    ensures HeardOk(a, Apply(b, x), k)
  {
    assert HeardOk(a, b, k) && WireOk(a, k);
    if k < |a.wire| && a.wire[k].Cancel? {
      var id := a.wire[k].id;
      assert ServedOk(a, b, id) && TaskOk(b, id);
    }
  }

  lemma ServerStep(a: EP, b: EP, x: Action)
    requires Good(a) && Good(b) && Link(a, b) && Legal(b, a, x)
    ensures Link(a, Apply(b, x))
  {
    var b' := Apply(b, x);
    NovelStep(a, b, x);
    assert b'.wire[..a.read] == b.wire[..a.read];
    forall id: nat ensures ServedOk(a, b', id) && AnswerOk(a, b', id) && FlowOk(a, b', id) {
      ServerServed(a, b, x, id);
      assert AnswerOk(a, b, id) && FlowOk(a, b, id);
    }
    forall k: nat ensures HeardOk(a, b', k) { ServerHeard(a, b, x, k); }
  }
}
