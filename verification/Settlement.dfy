// Settlement of one endpoint's requests over any sequence of steps, against any peer.
module Settlement {
  import opened Prelude
  import opened JsonRpc
  import opened EndpointModel
  import opened EndpointInvariant

  ghost predicate Steps(e: EP, acts: seq<Action>, e': EP)
    decreases |acts|
  {
    if acts == [] then e == e' else Enabled(e, acts[0]) && Steps(Apply(e, acts[0]), acts[1..], e')
  }

  // No id is used for two requests: a request keeps its id and identity for ever, and later ones get
  // greater ids.
  lemma {:induction false} IdsNeverReused(e: EP, acts: seq<Action>, e': EP, id: nat)
    requires Local(e) && Steps(e, acts, e')
    ensures Local(e') && e.nextId <= e'.nextId
    ensures id in e.out ==> id in e'.out && SameIdentity(e.out[id], e'.out[id])
    ensures id in e'.out && id !in e.out ==> e.nextId < id <= e'.nextId
    decreases |acts|
  {
    assert RecordOk(e, id);
    if acts != [] {
      KeepLocal(e, acts[0]);
      if id in e.out { IdentityStable(e.out[id], id, acts[0]); }
      IdsNeverReused(Apply(e, acts[0]), acts[1..], e', id);
    }
    assert RecordOk(e', id);
  }

  // A future that has left the pending state never changes again: late and duplicate answers,
  // timeouts, cancellation and closure leave it alone.
  lemma FutureFixed(r: Outbound, id: nat, a: Action)
    requires !r.fut.Pending?
    ensures RecordStep(r, id, a).fut == r.fut
  {}

  lemma {:induction false} SettledOnce(e: EP, acts: seq<Action>, e': EP, id: nat)
    requires Local(e) && Steps(e, acts, e') && id in e.out && !e.out[id].fut.Pending?
    ensures id in e'.out && e'.out[id].fut == e.out[id].fut
    decreases |acts|
  {
    if acts != [] {
      assert RecordOk(e, id);
      KeepLocal(e, acts[0]);
      FutureFixed(e.out[id], id, acts[0]);
      SettledOnce(Apply(e, acts[0]), acts[1..], e', id);
    }
  }

  // A call that ended has its end, and a stream that has a result keeps it.
  lemma EndingFixed(r: Outbound, id: nat, a: Action)
    ensures r.kind.Single? && !r.kind.wait.Awaiting? ==> RecordStep(r, id, a).kind == r.kind
    ensures r.kind.Streaming? && r.kind.s.result.Some? ==>
      RecordStep(r, id, a).kind.Streaming? && RecordStep(r, id, a).kind.s.result == r.kind.s.result
  {}

  // The first ending of a call or a stream is its last: whatever cancel, timeout, closure or late answer
  // follows, a stream keeps the result it has and a call stays ended as it was.
  lemma {:induction false} EndedOnce(e: EP, acts: seq<Action>, e': EP, id: nat)
    requires Local(e) && Steps(e, acts, e') && id in e.out
    ensures id in e'.out
    ensures e.out[id].kind.Single? && !e.out[id].kind.wait.Awaiting? ==> e'.out[id].kind == e.out[id].kind
    ensures e.out[id].kind.Streaming? && e.out[id].kind.s.result.Some? ==>
      e'.out[id].kind.Streaming? && e'.out[id].kind.s.result == e.out[id].kind.s.result
    decreases |acts|
  {
    if acts != [] {
      assert RecordOk(e, id);
      KeepLocal(e, acts[0]);
      EndingFixed(e.out[id], id, acts[0]);
      EndedOnce(Apply(e, acts[0]), acts[1..], e', id);
    }
  }

  // A stream's result is what its future holds, or one of the three errors that end a stream early.
  predicate Reasoned(r: Outbound) {
    r.kind.Streaming? && r.kind.s.result.Some? ==>
      var s, o := r.kind.s, r.kind.s.result.value;
      || r.fut == Done(o)
      || (o == Error(TIMEOUT) && !s.settling)
      || (o == Error(REQUEST_CANCELLED) && (s.cancelled || r.fut.Cancelled?))
      || (o == Error(BRICK_UNAVAILABLE) && !s.listed)
  }

  lemma ReasonedClient(r: Outbound, c: ClientAct)
    requires Reasoned(r) && ClientReady(r, c)
    ensures Reasoned(ClientRecord(r, c))
  {}

  lemma ReasonedStep(r: Outbound, id: nat, a: Action)
    requires Reasoned(r)
    ensures Reasoned(RecordStep(r, id, a))
  {
    if a.Client? {
      if ClientReady(r, a.c) { ReasonedClient(r, a.c); }
    }
  }

  lemma {:induction false} ResultReasoned(e: EP, acts: seq<Action>, e': EP, id: nat)
    requires Steps(e, acts, e') && forall i :: i in e.out ==> Reasoned(e.out[i])
    ensures id in e'.out ==> Reasoned(e'.out[id])
    decreases |acts|
  {
    if acts != [] {
      forall i | i in e.out ensures Reasoned(RecordStep(e.out[i], i, acts[0])) { ReasonedStep(e.out[i], i, acts[0]); }
      ResultReasoned(Apply(e, acts[0]), acts[1..], e', id);
    }
  }

  // Whose call has ended, or whose stream has settled, that request is in no table; and one that has its
  // end, or a result, waits for no answer. A call that was never sent stays registered.
  predicate Cleared(r: Outbound) {
    match r.kind
    case Single(_, wait) =>
      && (r.pending ==> wait.Awaiting? || wait.Unsent?)
      && (wait.Returned? || wait.TimedOut? || wait.Abandoned? ==> !r.fut.Pending?)
      && (r.fut.Pending? ==> r.pending)
    case Streaming(s) =>
      && s.listed == r.pending && (r.pending && r.sent ==> s.settling)
      && (s.result.Some? || s.cancelled ==> !r.fut.Pending?)
      && (r.fut.Pending? ==> r.pending)
  }

  lemma ClearedClient(r: Outbound, c: ClientAct)
    requires Cleared(r) && ClientReady(r, c)
    ensures Cleared(ClientRecord(r, c))
  {}

  lemma ClearedStep(r: Outbound, id: nat, a: Action)
    requires Cleared(r)
    ensures Cleared(RecordStep(r, id, a))
  {
    if a.Client? {
      if ClientReady(r, a.c) { ClearedClient(r, a.c); }
    }
  }

  ghost predicate AllCleared(e: EP) {
    forall id :: id in e.out ==> Cleared(e.out[id])
  }

  lemma AllClearedStep(e: EP, a: Action)
    requires AllCleared(e) && Enabled(e, a)
    ensures AllCleared(Apply(e, a))
  {
    forall id | id in e.out ensures Cleared(RecordStep(e.out[id], id, a)) { ClearedStep(e.out[id], id, a); }
    forall id | id in NewRecord(e, a) ensures Cleared(NewRecord(e, a)[id]) {}
  }

  lemma {:induction false} TablesCleared(e: EP, acts: seq<Action>, e': EP)
    requires Steps(e, acts, e') && AllCleared(e)
    ensures AllCleared(e')
    decreases |acts|
  {
    if acts != [] {
      AllClearedStep(e, acts[0]);
      TablesCleared(Apply(e, acts[0]), acts[1..], e');
    }
  }

  // A request that arrives gets a task that can start.
  lemma RequestArrives(e: EP, id: nat, name: string, params: Params)
    requires !e.closed
    ensures var e' := Apply(e, Dispatch(Request(id, name, params)));
            && id in e'.tasks && e'.tasks[id].name == name && e'.tasks[id].params == params && e'.tasks[id].listed
            && Enabled(e', Server(id, Start)) && e'.out == e.out && e'.wire == e.wire
  {
    DispatchApply(e, Request(id, name, params));
  }

  // Once it has started it can end with any outcome, which is then the one thing written; and once it has
  // ended, its request is listed no more as soon as the done callback ran.
  lemma RequestServed(e: EP, id: nat, x: TaskAct, o: Outcome)
    requires Enabled(e, Server(id, x)) && !e.broken && (x == Start || x == Finish(o) || x == Reap)
    ensures var e' := Apply(e, Server(id, x));
            && id in e'.tasks && e'.out == e.out && e'.scheduled == e.scheduled
            && e'.wire == e.wire + (if x == Finish(o) then [Response(id, o)] else [])
            && (x == Start ==> Enabled(e', Server(id, Finish(o))))
            && (x == Finish(o) ==> e'.tasks[id].state == Ended(Some(o)) && Enabled(e', Server(id, Reap)))
            && (x == Reap ==> !e'.tasks[id].listed)
  {
    var a := Server(id, x);
    assert (map i | i in e.out :: RecordStep(e.out[i], i, a)) + map[] == e.out;
  }

  // A link that broke carries nothing ever after.
  lemma {:induction false} BrokenForGood(e: EP, acts: seq<Action>, e': EP)
    requires Steps(Apply(e, Break), acts, e')
    ensures e'.broken && e'.wire == e.wire
  {
    BrokenStays(Apply(e, Break), acts, e');
    assert e.wire + [] == e.wire;
  }

  lemma {:induction false} BrokenStays(e: EP, acts: seq<Action>, e': EP)
    requires e.broken && Steps(e, acts, e')
    ensures e'.broken && e'.wire == e.wire
    decreases |acts|
  {
    if acts != [] {
      assert e.wire + [] == e.wire;
      BrokenStays(Apply(e, acts[0]), acts[1..], e');
    }
  }

  // An answer nobody waits for changes nothing but the read position.
  lemma LateAnswer(e: EP, id: nat, o: Outcome)
    requires !e.closed && (id !in e.out || !e.out[id].pending || !e.out[id].fut.Pending?)
    ensures Apply(e, Dispatch(Response(id, o))) == e.(read := e.read + 1)
  {
    var a := Dispatch(Response(id, o));
    assert Apply(e, a).out == e.out;
    assert Apply(e, a).tasks == e.tasks;
    assert e.wire + Written(e, a) == e.wire;
  }

  // When the read loop ends or the endpoint is closed, every call and stream registered then is
  // settled, with `brick_unavailable` unless it was already, and both tables are empty.
  lemma EndSettles(e: EP, a: Action, id: nat)
    requires Enabled(e, a) && (a.ReadEnd? || a.Aclose?) && id in e.out
    ensures var r, r' := e.out[id], Apply(e, a).out[id];
            && !r'.pending
            && (r'.kind.Streaming? ==> !r'.kind.s.listed)
            && (r.pending ==> !r'.fut.Pending? && (r.fut.Pending? ==> r'.fut == Done(Error(BRICK_UNAVAILABLE))))
            && (r.kind.Streaming? && r.kind.s.listed ==>
                  r'.kind.Streaming? && r'.kind.s.queue == r.kind.s.queue + [None] &&
                  r'.kind.s.result == if r.kind.s.result.Some? then r.kind.s.result else Some(Error(BRICK_UNAVAILABLE)))
  {}

  // -- the read loop --

  datatype Line = Bad | Good(json: Json)

  // The `t` lines before position `n` are all bad.
  predicate BadRun(lines: seq<Line>, n: nat, t: nat) {
    t <= n <= |lines| && forall i :: n - t <= i < n ==> lines[i].Bad?
  }

  // A threshold below one acts like one.
  function Effective(threshold: int): nat {
    if threshold < 1 then 1 else threshold
  }

  // The object is a response to a call or stream that is still waiting for one.
  predicate Awaited(e: EP, j: Json) {
    j.id.Key? && j.id.n in e.out && e.out[j.id.n].pending && e.out[j.id.n].fut.Pending?
  }

  predicate Fatal(e: EP, line: Line) {
    line.Good? && Raises(line.json, Awaited(e, line.json))
  }

  // The last of the first n lines is one on which dispatching raises.
  predicate Raised(e: EP, lines: seq<Line>, n: nat) {
    0 < n <= |lines| && Fatal(DispatchAll(e, Goods(lines[..n - 1])), lines[n - 1])
  }

  // Behind the first n lines the loop is to stop.
  predicate Stops(e: EP, lines: seq<Line>, threshold: int, n: nat) {
    BadRun(lines, n, Effective(threshold)) || Raised(e, lines, n)
  }

  // The loop stops behind the first run of `threshold` bad lines or the first line on which
  // dispatching raises, whichever comes first, or at the end.
  predicate CutAt(e: EP, lines: seq<Line>, threshold: int, n: nat) {
    && n <= |lines|
    && (n == |lines| || Stops(e, lines, threshold, n))
    && (forall m: nat :: m < n ==> !Stops(e, lines, threshold, m))
  }

  // What the lines in front of the cut make of the endpoint.
  function Taken(e: EP, lines: seq<Line>, n: nat): EP
    requires n <= |lines|
  {
    DispatchAll(e, Goods(lines[..if Raised(e, lines, n) then n - 1 else n]))
  }

  predicate AllBad(lines: seq<Line>) {
    forall i :: 0 <= i < |lines| ==> lines[i].Bad?
  }

  // Behind n lines the loop stops when they end in at least one bad line, and in as many as the threshold;
  // or when dispatching the last of them raises, for the endpoint that the good ones in front of it have
  // made. That one then has no effect.
  lemma {:induction false} StopsExact(e: EP, lines: seq<Line>, threshold: int, n: nat)
    requires 0 < n <= |lines|
    ensures var last, e' := lines[n - 1], DispatchAll(e, Goods(lines[..n - 1]));
            var raises := last.Good? && Raises(last.json, Awaited(e', last.json));
            && (Stops(e, lines, threshold, n) <==>
                  || raises
                  || exists k: nat :: k < n && threshold <= n - k && AllBad(lines[k..n]))
            && Taken(e, lines, n) == if raises then e' else DispatchAll(e, Goods(lines[..n]))
  {
    var t := Effective(threshold);
    if BadRun(lines, n, t) { assert AllBad(lines[n - t..n]); }
    if k: nat :| k < n && threshold <= n - k && AllBad(lines[k..n]) {
      assert forall i :: k <= i < n ==> lines[i] == lines[k..n][i - k];
    }
  }

  function Goods(lines: seq<Line>): seq<Msg> {
    if lines == [] then []
    else
      var l := lines[|lines| - 1];
      Goods(lines[..|lines| - 1]) + if l.Good? then [Classify(l.json)] else []
  }

  // `_dispatch` after classification; a message naming an id in no table is ignored.
  function Received(e: EP, m: Msg): EP {
    match m
    case Response(id, o) => if id in e.out then e.(out := e.out[id := Resolve(e.out[id], o)]) else e
    case Delta(id, p) => if id in e.out then e.(out := e.out[id := PushDelta(e.out[id], p)]) else e
    case Request(id, name, params) => e.(tasks := e.tasks[id := NewTask(name, params)])
    case Cancel(id) =>
      if id in e.tasks && e.tasks[id].listed then e.(tasks := e.tasks[id := CancelTask(e.tasks[id])]) else e
    case Note(_, _) => e
    case Junk => e
  }

  function Heard(e: EP, m: Msg): EP {
    Received(e.(read := e.read + 1), m)
  }

  lemma ReceivedOut(out: map<nat, Outbound>, m: Msg)
    ensures (map i | i in out :: RecordStep(out[i], i, Dispatch(m))) ==
            if m.Response? && m.id in out then out[m.id := Resolve(out[m.id], m.outcome)]
            else if m.Delta? && m.id in out then out[m.id := PushDelta(out[m.id], m.params)]
            else out
  {}

  lemma ReceivedTasks(tasks: map<nat, Task>, m: Msg)
    ensures (map i | i in tasks :: TaskStep(tasks[i], i, Dispatch(m)))
            + (if m.Request? then map[m.id := NewTask(m.name, m.params)] else map[]) ==
            if m.Request? then tasks[m.id := NewTask(m.name, m.params)]
            else if m.Cancel? && m.id in tasks && tasks[m.id].listed then tasks[m.id := CancelTask(tasks[m.id])]
            else tasks
  {}

  lemma DispatchApply(e: EP, m: Msg)
    requires !e.closed
    ensures Apply(e, Dispatch(m)) == Heard(e, m)
  {
    ReceivedOut(e.out, m);
    ReceivedTasks(e.tasks, m);
    var out := map i | i in e.out :: RecordStep(e.out[i], i, Dispatch(m));
    assert out + map[] == out;
    assert e.wire + [] == e.wire;
  }

  function DispatchAll(e: EP, ms: seq<Msg>): EP {
    if ms == [] then e else Heard(DispatchAll(e, ms[..|ms| - 1]), ms[|ms| - 1])
  }

  // Dispatching a list of messages is a run of `Dispatch` steps, one each, in order.
  lemma {:induction false} DispatchAllRuns(e: EP, ms: seq<Msg>)
    requires !e.closed
    ensures Steps(e, seq(|ms|, i requires 0 <= i < |ms| => Dispatch(ms[i])), DispatchAll(e, ms))
    ensures !DispatchAll(e, ms).closed
  {
    if ms != [] {
      var front, last := ms[..|ms| - 1], ms[|ms| - 1];
      DispatchAllRuns(e, front);
      DispatchApply(DispatchAll(e, front), last);
      var acts := seq(|front|, i requires 0 <= i < |front| => Dispatch(front[i]));
      StepsExtend(e, acts, DispatchAll(e, front), Dispatch(last));
      assert acts + [Dispatch(last)] == seq(|ms|, i requires 0 <= i < |ms| => Dispatch(ms[i]));
    }
  }

  lemma {:induction false} StepsExtend(e: EP, acts: seq<Action>, e': EP, a: Action)
    requires Steps(e, acts, e') && Enabled(e', a)
    ensures Steps(e, acts + [a], Apply(e', a))
    decreases |acts|
  {
    if acts == [] {
      assert (acts + [a])[1..] == [];
    } else {
      StepsExtend(Apply(e, acts[0]), acts[1..], e', a);
      assert (acts + [a])[1..] == acts[1..] + [a];
    }
  }

  lemma CutUnique(e: EP, lines: seq<Line>, threshold: int, m: nat, n: nat)
    requires CutAt(e, lines, threshold, m) && CutAt(e, lines, threshold, n)
    ensures m == n
  {}
}
