// What every step of one endpoint keeps, whatever its peer sends.
module EndpointInvariant {
  import opened Prelude
  import opened JsonRpc
  import opened EndpointModel

  predicate AllSome(q: seq<Option<Params>>) {
    forall k :: 0 <= k < |q| ==> q[k].Some?
  }

  predicate AllNone(q: seq<Option<Params>>) {
    forall k :: 0 <= k < |q| ==> q[k].None?
  }

  // No delta behind an end mark.
  predicate Tidy(q: seq<Option<Params>>) {
    forall i, j :: 0 <= i < j < |q| && q[i].None? ==> q[j].None?
  }

  // The originator stopped waiting of its own accord.
  predicate Quit(r: Outbound) {
    match r.kind
    case Single(_, wait) => wait.TimedOut? || wait.Abandoned?
    case Streaming(s) => s.cancelled
  }

  predicate GaveUp(e: EP, id: nat) {
    id in e.out && Quit(e.out[id])
  }

  // How far a request got, against its future.
  ghost predicate WaitOk(r: Outbound) {
    match r.kind
    case Single(_, Awaiting) => r.sent && !r.fut.Cancelled?
    case Single(_, Returned(o)) => r.sent && r.fut == Done(o)
    case Single(_, Unsent) => !r.sent
    case Single(_, _) => r.sent
    case Streaming(s) => s.cancelled || s.settling ==> r.sent
  }

  // A stream that ended with a value got it from its future, and its queue ends where it should.
  ghost predicate StreamOk(r: Outbound) {
    r.kind.Streaming? ==>
      var s := r.kind.s;
      && (s.result.None? ==> !s.ended && AllSome(s.queue))
      && (s.settling && s.result.None? ==> s.listed)
      && (s.result.Some? && s.result.value.Value? ==>
            r.fut == Done(s.result.value) && !s.listed && Tidy(s.queue) && (s.ended ==> AllNone(s.queue)))
  }

  ghost predicate RecordOk(e: EP, id: nat) {
    id in e.out ==>
      var r := e.out[id];
      && 1 <= id <= e.nextId
      && WaitOk(r)
      && StreamOk(r)
      && (if r.sent then r.at < |e.wire| && e.wire[r.at] == Request(id, r.name, r.params) else e.broken)
  }

  // A request stands on the wire once, and before any `$/cancel` naming it.
  ghost predicate WireOk(e: EP, k: nat) {
    k < |e.wire| ==>
      match e.wire[k]
      case Request(id, _, _) => id in e.out && e.out[id].sent && e.out[id].at == k
      case Cancel(id) => id in e.out && e.out[id].sent && e.out[id].at < k
      case _ => true
  }

  ghost predicate ScheduledOk(e: EP, k: nat) {
    k < |e.scheduled| ==>
      var m := e.scheduled[k];
      m.Response? || (m.Cancel? && m.id in e.out && e.out[m.id].sent)
  }

  function Count(w: seq<Msg>, m: Msg): nat {
    if w == [] then 0 else Count(w[..|w| - 1], m) + if w[|w| - 1] == m then 1 else 0
  }

  // How often a message was handed over for sending, written or still scheduled.
  function Sends(e: EP, m: Msg): nat {
    Count(e.wire, m) + Count(e.scheduled, m)
  }

  // At most one `$/cancel` per request, only for a request given up, and always one for it.
  ghost predicate CancelOk(e: EP, id: nat) {
    && Sends(e, Cancel(id)) <= 1
    && (Sends(e, Cancel(id)) > 0 ==> GaveUp(e, id))
    && (!e.broken && GaveUp(e, id) ==> Sends(e, Cancel(id)) == 1)
  }

  // The part of the invariant that holds against any peer.
  ghost predicate Local(e: EP) {
    && (forall id: nat :: RecordOk(e, id))
    && (forall id: nat :: CancelOk(e, id))
    && (forall k: nat :: WireOk(e, k))
    && (forall k: nat :: ScheduledOk(e, k))
  }

  lemma InitLocal()
    ensures Local(INIT)
  {}

  lemma KeepClientRecord(r: Outbound, c: ClientAct)
    requires WaitOk(r) && StreamOk(r) && ClientReady(r, c)
    ensures WaitOk(ClientRecord(r, c)) && StreamOk(ClientRecord(r, c))
  {}

  lemma KeepFail(r: Outbound)
    requires WaitOk(r) && StreamOk(r)
    ensures WaitOk(Fail(r)) && StreamOk(Fail(r))
  {}

  lemma KeepHeard(r: Outbound, o: Outcome, params: Params)
    requires WaitOk(r) && StreamOk(r)
    ensures WaitOk(Resolve(r, o)) && StreamOk(Resolve(r, o))
    ensures WaitOk(PushDelta(r, params)) && StreamOk(PushDelta(r, params))
  {}

  // Who a request is never changes.
  predicate SameIdentity(r: Outbound, r': Outbound) {
    && r'.name == r.name && r'.params == r.params && r'.sent == r.sent && r'.at == r.at
    && (r.kind.Single? ==> r'.kind.Single? && r'.kind.owner == r.kind.owner)
    && (r.kind.Streaming? ==> r'.kind.Streaming?)
  }

  lemma IdentityStable(r: Outbound, id: nat, a: Action)
    ensures SameIdentity(r, RecordStep(r, id, a))
  {}

  lemma KeepRecordStep(r: Outbound, id: nat, a: Action)
    requires WaitOk(r) && StreamOk(r)
    ensures WaitOk(RecordStep(r, id, a)) && StreamOk(RecordStep(r, id, a))
  {
    match a {
      case Client(_, c) => if ClientReady(r, c) { KeepClientRecord(r, c); }
      case Dispatch(Response(_, o)) => KeepHeard(r, o, Params(None, None, ""));
      case Dispatch(Delta(_, p)) => KeepHeard(r, Error(0), p);
      case _ => KeepFail(r);
    }
  }

  lemma KeepRecord(e: EP, a: Action, id: nat)
    requires RecordOk(e, id) && Enabled(e, a)
    ensures RecordOk(Apply(e, a), id)
  {
    if id in e.out {
      KeepRecordStep(e.out[id], id, a);
      IdentityStable(e.out[id], id, a);
    }
  }

  lemma KeepWire(e: EP, a: Action, k: nat)
    requires Local(e) && Enabled(e, a)
    ensures WireOk(Apply(e, a), k)
  {
    var e' := Apply(e, a);
    if k < |e'.wire| && (e'.wire[k].Request? || e'.wire[k].Cancel?) {
      var id := e'.wire[k].id;
      assert RecordOk(e, id) && WireOk(e, k);
      if id in e.out { IdentityStable(e.out[id], id, a); }
      if a.Flush? { assert ScheduledOk(e, a.k); }
    }
  }

  lemma KeepScheduled(e: EP, a: Action, k: nat)
    requires Local(e) && Enabled(e, a)
    ensures ScheduledOk(Apply(e, a), k)
  {
    var e' := Apply(e, a);
    assert ScheduledOk(e, k) && ScheduledOk(e, k + 1);
    if k < |e'.scheduled| && e'.scheduled[k].Cancel? {
      var id := e'.scheduled[k].id;
      assert RecordOk(e, id);
      if id in e.out { IdentityStable(e.out[id], id, a); }
    }
  }

  lemma {:induction false} CountAppend(w: seq<Msg>, x: Msg, m: Msg)
    ensures Count(w + [x], m) == Count(w, m) + if x == m then 1 else 0
  {
    assert (w + [x])[..|w|] == w;
  }

  lemma {:induction false} CountRemove(w: seq<Msg>, k: nat, m: Msg)
    requires k < |w|
    ensures Count(w[..k] + w[k+1..], m) == Count(w, m) - if w[k] == m then 1 else 0
  {
    var n := |w| - 1;
    if k == n {
      assert w[..k] + w[k+1..] == w[..n];
    } else {
      CountRemove(w[..n], k, m);
      assert (w[..k] + w[k+1..])[..n-1] == w[..n][..k] + w[..n][k+1..];
    }
  }

  lemma {:induction false} CountMember(w: seq<Msg>, m: Msg)
    ensures Count(w, m) > 0 <==> m in w
  {
    if w != [] {
      CountMember(w[..|w| - 1], m);
      assert w == w[..|w| - 1] + [w[|w| - 1]];
    }
  }

  lemma {:induction false} CountExtend(w: seq<Msg>, x: seq<Msg>, m: Msg)
    requires |x| <= 1
    ensures Count(w + x, m) == Count(w, m) + if x == [m] then 1 else 0
  {
    if x == [] { assert w + x == w; } else { CountAppend(w, x[0], m); assert x == [x[0]]; }
  }

  // The message handed over is now written, or scheduled, or lost to a broken transport.
  lemma {:induction false} LaterSends(e: EP, a: Action, m: Msg)
    requires Enabled(e, a) && !a.Aclose?
    ensures Count(Later(e, a), m) ==
            Count(e.scheduled, m)
            - (if a.Flush? && e.scheduled[a.k] == m then 1 else 0)
            + (if Deferred(a) && Added(e, a) == Some(m) then 1 else 0)
  {
    if a.Flush? {
      CountRemove(e.scheduled, a.k, m);
    } else if Deferred(a) && Added(e, a).Some? {
      CountExtend(e.scheduled, [Added(e, a).value], m);
    }
  }

  lemma {:induction false} WireSends(e: EP, a: Action, m: Msg)
    requires Enabled(e, a)
    ensures Count(e.wire + Written(e, a), m) ==
            Count(e.wire, m)
            + (if !e.broken && a.Flush? && e.scheduled[a.k] == m then 1 else 0)
            + (if !e.broken && !Deferred(a) && Added(e, a) == Some(m) then 1 else 0)
  {
    CountExtend(e.wire, Written(e, a), m);
    assert forall x: Msg :: [x] == [m] ==> x == m by { assert forall x: Msg :: [x][0] == x; }
  }

  // Sending moves messages but makes none up, and loses none while the transport works.
  lemma SendsStep(e: EP, a: Action, m: Msg)
    requires Enabled(e, a)
    ensures Sends(Apply(e, a), m) <= Sends(e, m) + if Added(e, a) == Some(m) then 1 else 0
    ensures !Apply(e, a).broken ==> Sends(Apply(e, a), m) == Sends(e, m) + if Added(e, a) == Some(m) then 1 else 0
  {
    WireSends(e, a, m);
    if !a.Aclose? { LaterSends(e, a, m); }
  }

  predicate GivesUp(a: Action, id: nat) {
    a.Client? && a.id == id && (a.c.CallTimeout? || a.c.CallAbandon? || a.c.CancelStream?)
  }

  lemma QuitStep(r: Outbound, id: nat, a: Action)
    requires a.Client? && a.id == id ==> ClientReady(r, a.c)
    ensures Quit(RecordStep(r, id, a)) <==> Quit(r) || GivesUp(a, id)
    ensures GivesUp(a, id) ==> !Quit(r)
  {}

  lemma KeepCancel(e: EP, a: Action, id: nat)
    requires RecordOk(e, id) && CancelOk(e, id) && Enabled(e, a)
    ensures CancelOk(Apply(e, a), id)
  {
    SendsStep(e, a, Cancel(id));
    if id in e.out { QuitStep(e.out[id], id, a); }
  }

  lemma KeepLocal(e: EP, a: Action)
    requires Local(e) && Enabled(e, a)
    ensures Local(Apply(e, a))
  {
    forall id: nat ensures RecordOk(Apply(e, a), id) && CancelOk(Apply(e, a), id) {
      KeepRecord(e, a, id);
      KeepCancel(e, a, id);
    }
    forall k: nat ensures WireOk(Apply(e, a), k) && ScheduledOk(Apply(e, a), k) {
      KeepWire(e, a, k);
      KeepScheduled(e, a, k);
    }
  }
}
