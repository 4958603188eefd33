// The Endpoint object: its fields, and its methods between two suspension points.
module EndpointClass {
  import opened Prelude
  import opened JsonRpc
  import opened EndpointModel
  import opened Settlement

  // Stepping one record leaves the others alone.
  lemma OneClient(out: map<nat, Outbound>, id: nat, c: ClientAct)
    requires id in out && ClientReady(out[id], c)
    ensures (map i | i in out :: RecordStep(out[i], i, Client(id, c))) == out[id := ClientRecord(out[id], c)]
  {}

  lemma OneTask(tasks: map<nat, Task>, id: nat, x: TaskAct)
    requires id in tasks
    ensures (map i | i in tasks :: TaskStep(tasks[i], i, Server(id, x))) == tasks[id := TaskRecord(tasks[id], x)]
  {}

  predicate Quiet(a: Action) {
    !a.Server? && !a.Aclose? && (a.Dispatch? ==> !a.msg.Request? && !a.msg.Cancel?)
  }

  lemma TasksUntouched(tasks: map<nat, Task>, a: Action)
    requires Quiet(a)
    ensures (map i | i in tasks :: TaskStep(tasks[i], i, a)) == tasks
  {}

  lemma RecordsUntouched(out: map<nat, Outbound>, a: Action)
    requires !a.Client? && !a.ReadEnd? && !a.Aclose? && (a.Dispatch? ==> !a.msg.Response? && !a.msg.Delta?)
    ensures (map i | i in out :: RecordStep(out[i], i, a)) == out
  {}

  // The steps again, in the form the methods take them; each is shown to be the step of that name.

  function ClientNext(e: EP, id: nat, c: ClientAct): EP
    requires id in e.out && ClientReady(e.out[id], c)
  {
    e.(out := e.out[id := ClientRecord(e.out[id], c)],
       scheduled := if c.CallTimeout? || c.CallAbandon? then e.scheduled + [Cancel(id)] else e.scheduled,
       wire := if c.CancelStream? && !e.broken then e.wire + [Cancel(id)] else e.wire)
  }

  lemma ClientApply(e: EP, id: nat, c: ClientAct)
    requires Enabled(e, Client(id, c))
    ensures Apply(e, Client(id, c)) == ClientNext(e, id, c)
  {
    OneClient(e.out, id, c);
    TasksUntouched(e.tasks, Client(id, c));
    assert e.out[id := ClientRecord(e.out[id], c)] + map[] == e.out[id := ClientRecord(e.out[id], c)];
    assert e.tasks + map[] == e.tasks;
    assert e.wire + [] == e.wire;
  }

  function ServerNext(e: EP, id: nat, x: TaskAct): EP
    requires id in e.tasks
  {
    var e1 := e.(tasks := e.tasks[id := TaskRecord(e.tasks[id], x)]);
    match x
    case Emit(params) => Posted(e1, Delta(id, params))
    case Finish(o) => Posted(e1, Response(id, o))
    case Unwind =>
      if e.tasks[id].state.Running? then
        e1.(scheduled := e.scheduled + [Response(id, Error(REQUEST_CANCELLED))])
      else e1
    case _ => e1
  }

  function Posted(e: EP, m: Msg): EP {
    if e.broken then e else e.(wire := e.wire + [m])
  }

  lemma ServerApply(e: EP, id: nat, x: TaskAct)
    requires Enabled(e, Server(id, x))
    ensures Apply(e, Server(id, x)) == ServerNext(e, id, x)
  {
    OneTask(e.tasks, id, x);
    RecordsUntouched(e.out, Server(id, x));
    assert e.out + map[] == e.out;
    assert e.tasks[id := TaskRecord(e.tasks[id], x)] + map[] == e.tasks[id := TaskRecord(e.tasks[id], x)];
    assert e.wire + [] == e.wire;
  }

  function Registered(e: EP, name: string, params: Params, kind: Kind): EP {
    var id := e.nextId + 1;
    Posted(e.(nextId := id, out := e.out[id := Outbound(name, params, !e.broken, |e.wire|, Pending, true, kind)]),
           Request(id, name, params))
  }

  lemma CallApply(e: EP, name: string, params: Params, owner: Option<TaskRef>)
    ensures Apply(e, StartCall(name, params, owner)) ==
            Registered(e, name, params, Single(owner, if e.broken then Unsent else Awaiting))
  {
    RecordsUntouched(e.out, StartCall(name, params, owner));
    TasksUntouched(e.tasks, StartCall(name, params, owner));
    assert e.tasks + map[] == e.tasks;
    assert e.wire + [] == e.wire;
  }

  lemma StreamApply(e: EP, name: string, params: Params)
    ensures Apply(e, OpenStream(name, params)) ==
            Registered(e, name, params, Streaming(Strm([], None, false, [], false, !e.broken, true)))
  {
    RecordsUntouched(e.out, OpenStream(name, params));
    TasksUntouched(e.tasks, OpenStream(name, params));
    assert e.tasks + map[] == e.tasks;
    assert e.wire + [] == e.wire;
  }

  function Flushed(e: EP, k: nat): EP
    requires k < |e.scheduled|
  {
    Posted(e.(scheduled := e.scheduled[..k] + e.scheduled[k+1..]), e.scheduled[k])
  }

  lemma FlushApply(e: EP, k: nat)
    requires k < |e.scheduled|
    ensures Apply(e, Flush(k)) == Flushed(e, k)
  {
    RecordsUntouched(e.out, Flush(k));
    TasksUntouched(e.tasks, Flush(k));
    assert e.out + map[] == e.out && e.tasks + map[] == e.tasks;
    assert e.wire + [] == e.wire;
  }

  function AllFailed(out: map<nat, Outbound>): map<nat, Outbound> {
    map id | id in out :: Fail(out[id])
  }

  function AllCancelled(tasks: map<nat, Task>): map<nat, Task> {
    map id | id in tasks :: CancelTask(tasks[id])
  }

  function ReadEnded(e: EP, eof: bool): EP {
    e.(closed := true, broken := e.broken || eof, out := AllFailed(e.out))
  }

  lemma ReadEndApply(e: EP, eof: bool)
    requires !e.closed
    ensures Apply(e, ReadEnd(eof)) == ReadEnded(e, eof)
  {
    TasksUntouched(e.tasks, ReadEnd(eof));
    var out := map i | i in e.out :: RecordStep(e.out[i], i, ReadEnd(eof));
    assert out == AllFailed(e.out);
    assert out + map[] == out && e.tasks + map[] == e.tasks;
    assert e.wire + [] == e.wire;
  }

  function Aclosed(e: EP): EP {
    ReadEnded(e, true).(tasks := AllCancelled(e.tasks), scheduled := [])
  }

  lemma AcloseApply(e: EP)
    ensures Apply(e, Aclose) == Aclosed(e)
  {
    var out := map i | i in e.out :: RecordStep(e.out[i], i, Aclose);
    var tasks := map i | i in e.tasks :: TaskStep(e.tasks[i], i, Aclose);
    assert out == AllFailed(e.out);
    assert tasks == AllCancelled(e.tasks);
    assert out + map[] == out && tasks + map[] == tasks;
    assert e.wire + [] == e.wire;
  }

  lemma {:induction false} ReadOne(e: EP, lines: seq<Line>, n: nat)
    requires n < |lines|
    ensures var before := DispatchAll(e, Goods(lines[..n]));
            DispatchAll(e, Goods(lines[..n + 1])) ==
            if lines[n].Bad? then before else Heard(before, Classify(lines[n].json))
  {
    var ms := Goods(lines[..n]);
    assert lines[..n + 1][..n] == lines[..n];
    if lines[n].Good? {
      var m := Classify(lines[n].json);
      assert (ms + [m])[..|ms|] == ms;
    } else {
      assert ms + [] == ms;
    }
  }

  // The last `count` of the first `n` lines are bad, the one before them is good, and no earlier run
  // was as long as `t`.
  ghost predicate Tail(lines: seq<Line>, n: nat, count: nat, t: nat) {
    && BadRun(lines, n, count) && (count < n ==> lines[n - count - 1].Good?)
    && forall m: nat :: m < n ==> !BadRun(lines, m, t)
  }

  lemma TailRun(lines: seq<Line>, n: nat, count: nat, t: nat)
    requires Tail(lines, n, count, t)
    ensures BadRun(lines, n, t) <==> t <= count
  {}

  lemma TailNext(lines: seq<Line>, n: nat, count: nat, t: nat)
    requires n < |lines| && Tail(lines, n, count, t) && count < t
    ensures Tail(lines, n + 1, if lines[n].Bad? then count + 1 else 0, t)
  {
    TailRun(lines, n, count, t);
  }

  // How far the loop has got: `n` lines, the last `count` of them bad.
  ghost predicate Progress(e: EP, lines: seq<Line>, n: nat, count: nat, t: nat, raised: bool) {
    && n <= |lines| && Tail(lines, n, count, t)
    && raised == Raised(e, lines, n) && forall m: nat :: m < n ==> !Raised(e, lines, m)
  }

  lemma ProgressNext(e: EP, lines: seq<Line>, n: nat, count: nat, t: nat)
    requires n < |lines| && Progress(e, lines, n, count, t, false) && count < t
    ensures Progress(e, lines, n + 1, if lines[n].Bad? then count + 1 else 0, t, Raised(e, lines, n + 1))
  {
    TailNext(lines, n, count, t);
  }

  lemma ProgressCut(e: EP, lines: seq<Line>, threshold: int, n: nat, count: nat, raised: bool)
    requires Progress(e, lines, n, count, Effective(threshold), raised)
    requires n == |lines| || raised || count >= Effective(threshold)
    ensures CutAt(e, lines, threshold, n)
    ensures raised || count >= Effective(threshold) <==> Stops(e, lines, threshold, n)
  {
    TailRun(lines, n, count, Effective(threshold));
  }

  // What `_fail_all` does to a request in the first of its two tables.
  function FailFuture(r: Outbound): Outbound {
    if r.pending then
      r.(fut := if r.fut.Pending? then Done(Error(BRICK_UNAVAILABLE)) else r.fut, pending := false)
    else r
  }

  class Endpoint {
    var nextId: nat
    // every future and StreamCall ever made, and every task, by request id
    var out: map<nat, Outbound>
    var tasks: map<nat, Task>
    // the keys of the three tables
    var pending: set<nat>
    var streams: set<nat>
    var inbound: set<nat>
    var scheduled: seq<Msg>
    var wire: seq<Msg>
    var read: nat
    var closed: bool
    var broken: bool
    const malformedThreshold: int

    ghost function State(): EP
      reads this
    {
      EP(nextId, out, tasks, scheduled, wire, read, closed, broken)
    }

    // The marks in the records say which ids are in which table.
    ghost predicate Valid()
      reads this
    {
      && (forall id :: id in pending <==> id in out && out[id].pending)
      && (forall id :: id in streams <==> id in out && out[id].kind.Streaming? && out[id].kind.s.listed)
      && (forall id :: id in inbound <==> id in tasks && tasks[id].listed)
      && (forall id :: id in out ==> id <= nextId)
    }

    constructor (malformedThreshold: int := 5)
      ensures Valid() && State() == INIT && this.malformedThreshold == malformedThreshold
    {
      this.malformedThreshold := malformedThreshold;
      nextId, out, tasks := 0, map[], map[];
      pending, streams, inbound := {}, {}, {};
      scheduled, wire, read, closed, broken := [], [], 0, false, false;
    }

    // `_write`; `sent` is false when the transport raised.
    method Write(m: Msg) returns (sent: bool)
      modifies this`wire
      ensures sent == !broken
      ensures wire == if broken then old(wire) else old(wire) + [m]
    {
      sent := !broken;
      if sent { wire := wire + [m]; }
    }

    // `call` up to its first suspension on the future.
    method Call(name: string, params: Params, owner: Option<TaskRef>) returns (id: nat)
      requires Valid()
      modifies this`nextId, this`out, this`pending, this`wire
      ensures Valid() && id == nextId && State() ==
        Registered(old(State()), name, params, Single(owner, if broken then Unsent else Awaiting))
    {
      nextId := nextId + 1;
      id := nextId;
      var at := |wire|;
      pending := pending + {id};
      var sent := Write(Request(id, name, params));
      var kind := Single(owner, if sent then Awaiting else Unsent);
      out := out[id := Outbound(name, params, sent, at, Pending, true, kind)];
    }

    // `call_stream`.
    method CallStream(name: string, params: Params) returns (id: nat)
      requires Valid()
      modifies this`nextId, this`out, this`pending, this`streams, this`wire
      ensures Valid() && id == nextId && State() ==
        Registered(old(State()), name, params, Streaming(Strm([], None, false, [], false, !broken, true)))
    {
      nextId := nextId + 1;
      id := nextId;
      var at := |wire|;
      streams := streams + {id};
      pending := pending + {id};
      var sent := Write(Request(id, name, params));
      var kind := Streaming(Strm([], None, false, [], false, sent, true));
      out := out[id := Outbound(name, params, sent, at, Pending, true, kind)];
    }

    // The await in `call` is over: a value or error, a timeout, or the cancellation of its task.
    method EndCall(id: nat, c: ClientAct)
      requires Valid() && id in out && ClientReady(out[id], c) && (c.CallReturn? || c.CallTimeout? || c.CallAbandon?)
      modifies this`out, this`pending, this`scheduled
      ensures Valid() && State() == ClientNext(old(State()), id, c)
    {
      var r := out[id];
      if c.CallReturn? {
        r := EndWait(r, r.fut, Returned(r.fut.outcome));
      } else if c.CallTimeout? {
        r := EndWait(r, CancelFuture(r.fut), TimedOut);
        scheduled := scheduled + [Cancel(id)];
      } else {
        r := EndWait(r, CancelFuture(r.fut), Abandoned);
        scheduled := scheduled + [Cancel(id)];
      }
      pending := pending - {id};
      out := out[id := r];
    }

    // `_settle` runs on after its future, or after the timeout.
    method SettleStream(id: nat, timedOut: bool)
      requires Valid() && id in out && ClientReady(out[id], if timedOut then SettleTimeout else Settle)
      modifies this`out, this`pending, this`streams
      ensures Valid() && State() == ClientNext(old(State()), id, if timedOut then SettleTimeout else Settle)
    {
      var r := out[id];
      var fut := if timedOut then CancelFuture(r.fut) else r.fut;
      var shown := if timedOut then Error(TIMEOUT) else if r.fut.Done? then r.fut.outcome else Error(REQUEST_CANCELLED);
      pending := pending - {id};
      streams := streams - {id};
      out := out[id := Settled(r, fut, shown)];
    }

    // `StreamCall.cancel`.
    method CancelStreamCall(id: nat)
      requires Valid() && id in out && ClientReady(out[id], CancelStream)
      modifies this`out, this`wire
      ensures Valid() && State() == ClientNext(old(State()), id, CancelStream)
    {
      var r := out[id];
      var sent := Write(Cancel(id));
      r := r.(fut := CancelFuture(r.fut),
              kind := Streaming(FinishStream(r.kind.s, Error(REQUEST_CANCELLED)).(cancelled := true)));
      out := out[id := r];
    }

    // `StreamCall.__anext__` on the queue.
    static method TakeHead(s0: Strm) returns (item: Option<Params>, s: Strm)
      requires s0.queue != []
      ensures s == TakeItem(s0) && s0.queue == [item] + s.queue
    {
      item, s := s0.queue[0], s0.(queue := s0.queue[1..]);
      match item {
        case Some(p) => s := s.(taken := s.taken + [p]);
        case None => s := s.(ended := true);
      }
    }

    // One item of the consumer's iteration; None is the end.
    method NextDelta(id: nat) returns (item: Option<Params>)
      requires Valid() && id in out && ClientReady(out[id], Take)
      modifies this`out
      ensures Valid() && State() == ClientNext(old(State()), id, Take)
      ensures var s, s' := old(out)[id].kind.s, out[id].kind.s;
              && s.queue == [item] + s'.queue && s'.ended == (s.ended || item.None?)
              && s'.taken == if item.Some? then s.taken + [item.value] else s.taken
    {
      var r, s := out[id], out[id].kind.s;
      item, s := TakeHead(s);
      out := out[id := r.(kind := Streaming(s))];
    }

    // A scheduled `_send_cancel` or `_send_error` gets its turn.
    method RunScheduled(k: nat)
      requires Valid() && k < |scheduled|
      modifies this`scheduled, this`wire
      ensures Valid() && State() == Flushed(old(State()), k)
    {
      var m := scheduled[k];
      scheduled := scheduled[..k] + scheduled[k+1..];
      var sent := Write(m);
    }

    // `_handle_request`, stage by stage, and the done callback.
    method Handle(id: nat, x: TaskAct)
      requires Valid() && id in tasks && TaskReady(tasks[id], x, broken) && (x.Emit? ==> Addressed(x.params, id))
      modifies this
      ensures Valid() && State() == ServerNext(old(State()), id, x)
    {
      var t := tasks[id];
      match x {
        case Start =>
          t := t.(state := Running);
        case Emit(params) =>
          var sent := Write(Delta(id, params));
          t := t.(emitted := t.emitted + [params]);
        case Finish(o) =>
          t := t.(state := Ended(Some(o)));
          var sent := Write(Response(id, o));
        case Unwind =>
          if t.state.Running? {
            scheduled := scheduled + [Response(id, Error(REQUEST_CANCELLED))];
            t := t.(state := Ended(Some(Error(REQUEST_CANCELLED))));
          } else {
            t := t.(state := Ended(None));
          }
        case Reap =>
          inbound := inbound - {id};
          t := t.(listed := false);
      }
      tasks := tasks[id := t];
    }

    // `_resolve`.
    method ResolveResponse(id: nat, o: Outcome)
      requires Valid()
      modifies this`out
      ensures Valid() && State() == Received(old(State()), Response(id, o))
    {
      if id in pending && out[id].fut.Pending? { out := out[id := out[id].(fut := Done(o))]; }
    }

    // `_handle_notification`: `$/cancel`, a stream's delta, or one for the notification handler.
    method HandleNotification(m: Msg)
      requires Valid() && (m.Cancel? || m.Delta? || m.Note?)
      modifies this`out, this`tasks
      ensures Valid() && State() == Received(old(State()), m)
    {
      match m {
        case Cancel(id) =>
          if id in inbound && !tasks[id].state.Ended? { tasks := tasks[id := tasks[id].(cancelReq := true)]; }
        case Delta(id, params) =>
          if id in streams {
            var s := out[id].kind.s;
            out := out[id := out[id].(kind := Streaming(s.(queue := s.queue + [Some(params)])))];
          }
        case _ =>
      }
    }

    // The task that is to serve a request, listed under its id.
    method AcceptRequest(id: nat, name: string, params: Params)
      requires Valid()
      modifies this`tasks, this`inbound
      ensures Valid() && State() == Received(old(State()), Request(id, name, params))
    {
      tasks := tasks[id := Task(name, params, Created, false, [], true)];
      inbound := inbound + {id};
    }

    // `_dispatch`.
    method DispatchJson(j: Json) returns (raised: bool)
      requires Valid() && !closed
      modifies this
      ensures raised == Raises(j, Awaited(old(State()), j))
      ensures Valid() && State() == if raised then old(State()) else Heard(old(State()), Classify(j))
      ensures !closed && broken == old(broken)
    {
      var hasId := !j.id.NoKey?;
      raised := hasId && j.id.Unhashable? && (IsResponse(j) || j.name.Some?);
      if raised { return; }
      if IsResponse(j) && hasId {
        raised := j.id.n in pending && out[j.id.n].fut.Pending? && j.error == Some(None);
        if raised { return; }
        read := read + 1;
        var outcome := if j.error.None? then Value(j.result.value) else Error(CodeOf(j.error.value));
        ResolveResponse(j.id.n, outcome);
      } else if j.name.Some? && hasId {
        read := read + 1;
        AcceptRequest(j.id.n, j.name.value, Decoded(j.params));
      } else if j.name.Some? {
        raised := BadArgs(j.name.value, j.params);
        if raised { return; }
        read := read + 1;
        HandleNotification(Noted(j.name.value, Decoded(j.params)));
      } else {
        read := read + 1;
      }
    }

    method FailPending()
      requires Valid()
      modifies this`out, this`pending
      ensures Valid() && pending == {}
      ensures out == map id | id in old(out) :: FailFuture(old(out)[id])
    {
      ghost var out0, pending0 := out, pending;
      while pending != {}
        invariant pending <= pending0 && out.Keys == out0.Keys
        invariant forall id :: id in out ==>
          out[id] == if id in pending0 - pending then FailFuture(out0[id]) else out0[id]
      {
        var id :| id in pending;
        var r := out[id];
        out := out[id := r.(fut := if r.fut.Pending? then Done(Error(BRICK_UNAVAILABLE)) else r.fut, pending := false)];
        pending := pending - {id};
      }
    }

    method FailStreams()
      requires Valid() && pending == {}
      modifies this`out, this`streams
      ensures Valid() && streams == {}
      ensures out == map id | id in old(out) :: Fail(old(out)[id])
    {
      ghost var out0, streams0 := out, streams;
      while streams != {}
        invariant streams <= streams0 && out.Keys == out0.Keys
        invariant forall id :: id in out ==> out[id] == if id in streams0 - streams then Fail(out0[id]) else out0[id]
      {
        var id :| id in streams;
        var r := out[id];
        out := out[id := r.(kind := Streaming(FinishStream(r.kind.s, Error(BRICK_UNAVAILABLE)).(listed := false)))];
        streams := streams - {id};
      }
    }

    // `_fail_all`: both tables are walked and emptied.
    method FailAll()
      requires Valid()
      modifies this`out, this`pending, this`streams
      ensures Valid() && pending == {} && streams == {}
      ensures out == AllFailed(old(out))
    {
      FailPending();
      FailStreams();
    }

    // One line of the loop; `count` is the number of bad lines in a row, this one included.
    method ReadLine(line: Line, consecutiveBad: nat, ghost e: EP, ghost lines: seq<Line>, ghost n: nat)
      returns (count: nat, raised: bool)
      requires Valid() && !closed && n < |lines| && lines[n] == line
      requires State() == DispatchAll(e, Goods(lines[..n]))
      modifies this
      ensures Valid() && !closed && broken == old(broken)
      ensures count == if line.Bad? then consecutiveBad + 1 else 0
      ensures raised == Raised(e, lines, n + 1)
      ensures State() == DispatchAll(e, Goods(lines[..if raised then n else n + 1]))
    {
      ReadOne(e, lines, n);
      assert lines[..n + 1 - 1] == lines[..n];
      if line.Bad? {
        count, raised := consecutiveBad + 1, false;
      } else {
        count := 0;
        raised := DispatchJson(line.json);
      }
    }

    // The lines up to the cut; `stopped` is true when bad lines made it, `raised` when dispatching did.
    method ReadLines(lines: seq<Line>) returns (n: nat, stopped: bool, raised: bool)
      requires Valid() && !closed
      modifies this
      ensures Valid() && !closed && broken == old(broken) && CutAt(old(State()), lines, malformedThreshold, n)
      ensures State() == Taken(old(State()), lines, n)
      ensures stopped || raised <==> Stops(old(State()), lines, malformedThreshold, n)
    {
      ghost var e := State();
      ghost var t := Effective(malformedThreshold);
      var consecutiveBad: nat := 0;
      n, stopped, raised := 0, false, false;
      while n < |lines| && !stopped && !raised
        invariant Valid() && !closed && broken == old(broken)
        invariant Progress(e, lines, n, consecutiveBad, t, raised) && (stopped <==> consecutiveBad >= t)
        invariant State() == Taken(e, lines, n)
      {
        ProgressNext(e, lines, n, consecutiveBad, t);
        consecutiveBad, raised := ReadLine(lines[n], consecutiveBad, e, lines, n);
        n := n + 1;
        stopped := consecutiveBad > 0 && consecutiveBad >= malformedThreshold;
      }
      ProgressCut(e, lines, malformedThreshold, n, consecutiveBad, raised);
    }

    // `_read_loop` over the lines the transport yields: dispatches exactly the good lines in front of
    // the cut, then settles what is left. Without a run of bad lines and without a line on which
    // dispatching raises, the loop ends because the transport did.
    method ReadLoop(lines: seq<Line>) returns (n: nat)
      requires Valid() && !closed
      modifies this
      ensures Valid() && CutAt(old(State()), lines, malformedThreshold, n)
      ensures State() == ReadEnded(Taken(old(State()), lines, n),
                                   !Stops(old(State()), lines, malformedThreshold, n))
      ensures pending == {} && streams == {}
    {
      var stopped, raised;
      n, stopped, raised := ReadLines(lines);
      closed := true;
      broken := broken || !(stopped || raised);
      FailAll();
    }

    // Every handler that still runs gets a cancel.
    method CancelTasks()
      requires Valid()
      modifies this`tasks
      ensures Valid() && tasks == AllCancelled(old(tasks))
    {
      tasks := AllCancelled(tasks);
    }

    // `aclose`: the scheduled sends are tasks too and are cancelled with the handlers.
    method CloseNow()
      requires Valid()
      modifies this
      ensures Valid() && State() == Aclosed(old(State())) && pending == {} && streams == {}
    {
      CancelTasks();
      closed, broken, scheduled := true, true, [];
      FailAll();
    }
  }
}
