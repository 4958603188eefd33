// The state of one Endpoint and the effect of each of its atomic steps. A step is what runs
// between two suspension points of the event loop; a write to the transport is atomic.
module EndpointModel {
  import opened Prelude
  import opened JsonRpc

  // The future of an outbound request.
  datatype Future = Pending | Done(outcome: Outcome) | Cancelled

  // An inbound handler task: the endpoint that serves it and the peer's request id.
  datatype TaskRef = TaskRef(ep: nat, id: nat)

  // Where `call` stands: still waiting, returned or raised what the future held, timed out,
  // cancelled with its awaiting task, or never sent because the write failed.
  datatype Wait = Awaiting | Returned(outcome: Outcome) | TimedOut | Abandoned | Unsent

  // A StreamCall: the delta queue (None is the end mark), the result future, the cancel flag, the
  // deltas the consumer has taken, whether it has met an end mark, whether `_settle` still waits, and
  // whether the call is a key of `_streams`.
  datatype Strm = Strm(
    queue: seq<Option<Params>>, result: Option<Outcome>, cancelled: bool,
    taken: seq<Params>, ended: bool, settling: bool, listed: bool)

  // `owner` is the handler task that made the call, None for a call made outside any handler.
  datatype Kind = Single(owner: Option<TaskRef>, wait: Wait) | Streaming(s: Strm)

  // An outbound request. `at` is its position among the messages written, meaningful when `sent`;
  // `pending` says that its id is a key of `_pending`.
  datatype Outbound = Outbound(
    name: string, params: Params, sent: bool, at: nat, fut: Future, pending: bool, kind: Kind)

  datatype TaskState = Created | Running | Ended(reply: Option<Outcome>)

  // A task serving a request, the deltas its handler has emitted, and whether the request id is a
  // key of `_inbound_by_id`.
  datatype Task = Task(
    name: string, params: Params, state: TaskState, cancelReq: bool, emitted: seq<Params>, listed: bool)

  // `out` and `tasks` remember every request ever made and served. `scheduled` holds the sends
  // handed to the event loop that have not run. `wire` is everything written to the transport so
  // far and `read` how many of the peer's messages were dispatched: the channel to this endpoint
  // is the peer's `wire` from `read` on.
  datatype EP = EP(
    nextId: nat, out: map<nat, Outbound>, tasks: map<nat, Task>,
    scheduled: seq<Msg>, wire: seq<Msg>, read: nat, closed: bool, broken: bool)

  const INIT := EP(0, map[], map[], [], [], 0, false, false)

  // Steps of the code awaiting one outbound request.
  datatype ClientAct =
    | CallReturn     // the await in `call` yields what the future holds
    | CallTimeout    // `wait_for` in `call` expires
    | CallAbandon    // the task awaiting in `call` is cancelled
    | Settle         // the future wakes `_settle`
    | SettleTimeout  // `wait_for` in `_settle` expires
    | CancelStream   // `StreamCall.cancel`
    | Take           // the consumer takes the next queue item

  // Steps of one inbound handler task.
  datatype TaskAct =
    | Start
    | Emit(params: Params)      // `emit_delta`
    | Finish(outcome: Outcome)  // the handler returns or raises
    | Unwind                    // CancelledError leaves the handler
    | Reap                      // the done callback drops the table entry

  datatype Action =
    | StartCall(name: string, params: Params, owner: Option<TaskRef>)
    | OpenStream(name: string, params: Params)
    | Client(id: nat, c: ClientAct)
    | Server(id: nat, t: TaskAct)
    | Notify(name: string, params: Params)
    | Flush(k: nat)
    | Dispatch(msg: Msg)
    | ReadEnd(eof: bool)
    | Aclose
    | Break

  predicate ClientReady(r: Outbound, c: ClientAct) {
    match c
    case CallReturn => r.kind.Single? && r.kind.wait.Awaiting? && r.fut.Done?
    // the timer may fire in the turn of the event loop that answered the future
    case CallTimeout => r.kind.Single? && r.kind.wait.Awaiting?
    case CallAbandon => r.kind.Single? && r.kind.wait.Awaiting?
    case Settle => r.kind.Streaming? && r.kind.s.settling && !r.fut.Pending?
    case SettleTimeout => r.kind.Streaming? && r.kind.s.settling
    // `call_stream` hands out the StreamCall only after its write
    case CancelStream => r.kind.Streaming? && !r.kind.s.cancelled && r.sent
    case Take => r.kind.Streaming? && r.kind.s.queue != []
  }

  predicate TaskReady(t: Task, a: TaskAct, broken: bool) {
    match a
    // a task cancelled before its first step never enters its coroutine
    case Start => t.state.Created? && !t.cancelReq
    case Emit(_) => t.state.Running? && !broken
    case Finish(_) => t.state.Running?
    // without a cancel request the CancelledError came from something the handler awaited
    case Unwind => t.state.Running? || (t.state.Created? && t.cancelReq)
    case Reap => t.state.Ended?
  }

  // A delta as `emit_delta` writes it, when it brings no `request_id` of its own.
  predicate Addressed(params: Params, id: nat) {
    params.requestId == Some(id)
  }

  predicate LiveTask(e: EP, id: nat) {
    id in e.tasks && !e.tasks[id].state.Ended?
  }

  predicate Enabled(e: EP, a: Action) {
    match a
    case Client(id, c) => id in e.out && ClientReady(e.out[id], c)
    case Server(id, t) =>
      id in e.tasks && TaskReady(e.tasks[id], t, e.broken) && (t.Emit? ==> Addressed(t.params, id))
    case Notify(name, params) => params.requestId.None? && name != CANCEL_METHOD
    case Flush(k) => k < |e.scheduled|
    case Dispatch(_) => !e.closed
    case ReadEnd(_) => !e.closed
    case _ => true
  }

  // `_finish_ok` and `_finish_err`.
  function FinishStream(s: Strm, o: Outcome): Strm {
    s.(result := if s.result.Some? then s.result else Some(o), queue := s.queue + [None])
  }

  function CancelFuture(f: Future): Future {
    if f.Pending? then Cancelled else f
  }

  // `call` ends its await, and its `finally` drops the table entry.
  function EndWait(r: Outbound, fut: Future, wait: Wait): Outbound
    requires r.kind.Single?
  {
    r.(fut := fut, pending := false, kind := r.kind.(wait := wait))
  }

  // `_settle` ends: the stream finishes and leaves both tables.
  function Settled(r: Outbound, fut: Future, o: Outcome): Outbound
    requires r.kind.Streaming?
  {
    r.(fut := fut, pending := false,
       kind := Streaming(FinishStream(r.kind.s, o).(settling := false, listed := false)))
  }

  function TakeItem(s: Strm): Strm
    requires s.queue != []
  {
    match s.queue[0]
    case Some(p) => s.(queue := s.queue[1..], taken := s.taken + [p])
    case None => s.(queue := s.queue[1..], ended := true)
  }

  // What the step makes of the request's own record.
  function ClientRecord(r: Outbound, c: ClientAct): Outbound
    requires ClientReady(r, c)
  {
    match c
    case CallReturn => EndWait(r, r.fut, Returned(r.fut.outcome))
    case CallTimeout => EndWait(r, CancelFuture(r.fut), TimedOut)
    case CallAbandon => EndWait(r, CancelFuture(r.fut), Abandoned)
    // a cancelled future raises CancelledError
    case Settle => Settled(r, r.fut, if r.fut.Done? then r.fut.outcome else Error(REQUEST_CANCELLED))
    case SettleTimeout => Settled(r, CancelFuture(r.fut), Error(TIMEOUT))
    case CancelStream =>
      r.(fut := CancelFuture(r.fut),
         kind := Streaming(FinishStream(r.kind.s, Error(REQUEST_CANCELLED)).(cancelled := true)))
    case Take => r.(kind := Streaming(TakeItem(r.kind.s)))
  }

  function TaskRecord(t: Task, a: TaskAct): Task {
    match a
    case Start => t.(state := Running)
    case Emit(params) => t.(emitted := t.emitted + [params])
    case Finish(o) => t.(state := Ended(Some(o)))
    case Unwind => t.(state := Ended(if t.state.Created? then None else Some(Error(REQUEST_CANCELLED))))
    case Reap => t.(listed := false)
  }

  // `_resolve`: only a registered future that is still pending takes the response.
  function Resolve(r: Outbound, o: Outcome): Outbound {
    if r.pending && r.fut.Pending? then r.(fut := Done(o)) else r
  }

  function PushDelta(r: Outbound, params: Params): Outbound {
    if r.kind.Streaming? && r.kind.s.listed then
      r.(kind := Streaming(r.kind.s.(queue := r.kind.s.queue + [Some(params)])))
    else r
  }

  // `_fail_all` on one request.
  function Fail(r: Outbound): Outbound {
    r.(fut := if r.pending && r.fut.Pending? then Done(Error(BRICK_UNAVAILABLE)) else r.fut,
       pending := false,
       kind := if r.kind.Streaming? && r.kind.s.listed
               then Streaming(FinishStream(r.kind.s, Error(BRICK_UNAVAILABLE)).(listed := false)) else r.kind)
  }

  function CancelTask(t: Task): Task {
    if t.state.Ended? then t else t.(cancelReq := true)
  }

  // What a step makes of the request `id`. A message naming an id in no table is ignored.
  function RecordStep(r: Outbound, id: nat, a: Action): Outbound {
    match a
    case Client(i, c) => if i == id && ClientReady(r, c) then ClientRecord(r, c) else r
    case Dispatch(Response(i, o)) => if i == id then Resolve(r, o) else r
    case Dispatch(Delta(i, params)) => if i == id then PushDelta(r, params) else r
    case ReadEnd(_) => Fail(r)
    case Aclose => Fail(r)
    case _ => r
  }

  // What a step makes of the task serving `id`. A repeated id would replace it.
  function TaskStep(t: Task, id: nat, a: Action): Task {
    match a
    case Server(i, x) => if i == id then TaskRecord(t, x) else t
    case Dispatch(Cancel(i)) => if i == id && t.listed then CancelTask(t) else t
    case Dispatch(Request(i, name, params)) => if i == id then NewTask(name, params) else t
    case Aclose => CancelTask(t)
    case _ => t
  }

  function NewTask(name: string, params: Params): Task {
    Task(name, params, Created, false, [], true)
  }

  // Registered before the write, which may fail and leave the registration behind.
  function Fresh(e: EP, name: string, params: Params, kind: Kind): map<nat, Outbound> {
    map[e.nextId + 1 := Outbound(name, params, !e.broken, |e.wire|, Pending, true, kind)]
  }

  function NewRecord(e: EP, a: Action): map<nat, Outbound> {
    match a
    case StartCall(name, params, owner) =>
      Fresh(e, name, params, Single(owner, if e.broken then Unsent else Awaiting))
    case OpenStream(name, params) =>
      Fresh(e, name, params, Streaming(Strm([], None, false, [], false, !e.broken, true)))
    case _ => map[]
  }

  // The one message a step hands over for sending, if any. A call that times out or is abandoned
  // sends `$/cancel`, as does a cancelled stream; a finished handler answers, and so does one unwound
  // by CancelledError, unless it never started.
  function Added(e: EP, a: Action): Option<Msg>
    requires Enabled(e, a)
  {
    match a
    case StartCall(name, params, _) => Some(Request(e.nextId + 1, name, params))
    case OpenStream(name, params) => Some(Request(e.nextId + 1, name, params))
    case Client(id, c) => if c.CallTimeout? || c.CallAbandon? || c.CancelStream? then Some(Cancel(id)) else None
    case Server(id, Emit(params)) => Some(Delta(id, params))
    case Server(id, Finish(o)) => Some(Response(id, o))
    case Server(id, Unwind) =>
      if e.tasks[id].state.Running? then Some(Response(id, Error(REQUEST_CANCELLED))) else None
    case Notify(name, params) => Some(Note(name, params))
    case _ => None
  }

  // `_fire_cancel` and `_fire_send_error` leave their send to a task of its own.
  predicate Deferred(a: Action) {
    (a.Client? && (a.c.CallTimeout? || a.c.CallAbandon?)) || (a.Server? && a.t.Unwind?)
  }

  // What the step writes; a write on a broken transport raises and is lost.
  function Written(e: EP, a: Action): seq<Msg>
    requires Enabled(e, a)
  {
    if e.broken then []
    else if a.Flush? then [e.scheduled[a.k]]
    else if Added(e, a).Some? && !Deferred(a) then [Added(e, a).value]
    else []
  }

  // The sends left to run later; `aclose` cancels them.
  function Later(e: EP, a: Action): seq<Msg>
    requires Enabled(e, a)
  {
    if a.Aclose? then []
    else if a.Flush? then e.scheduled[..a.k] + e.scheduled[a.k+1..]
    else if Added(e, a).Some? && Deferred(a) then e.scheduled + [Added(e, a).value]
    else e.scheduled
  }

  function Apply(e: EP, a: Action): EP
    requires Enabled(e, a)
  {
    EP(if a.StartCall? || a.OpenStream? then e.nextId + 1 else e.nextId,
       (map id | id in e.out :: RecordStep(e.out[id], id, a)) + NewRecord(e, a),
       (map id | id in e.tasks :: TaskStep(e.tasks[id], id, a)) +
         (if a.Dispatch? && a.msg.Request? then map[a.msg.id := NewTask(a.msg.name, a.msg.params)] else map[]),
       Later(e, a),
       e.wire + Written(e, a),
       if a.Dispatch? then e.read + 1 else e.read,
       e.closed || a.ReadEnd? || a.Aclose?,
       e.broken || (a.ReadEnd? && a.eof) || a.Aclose? || a.Break?)
  }
}
