// The JSON-RPC 2.0 messages an Endpoint exchanges, and how one JSON object is classified.
module JsonRpc {
  import opened Prelude

  // Payloads are opaque JSON texts.
  type Payload = string

  const CANCEL_METHOD := "$/cancel"
  const BRICK_UNAVAILABLE := -32005
  const TIMEOUT := -32006
  const REQUEST_CANCELLED := -32009

  // What a request ends with: a `result` member, or an `error` member (its code).
  datatype Outcome = Value(v: Payload) | Error(code: int)

  // A `params` object: the two members the codec itself looks at, and the rest.
  datatype Params = Params(id: Option<nat>, requestId: Option<nat>, body: Payload)

  // A member that is looked up in a table: absent or null, a key, or an array or object, which is none.
  datatype Key = NoKey | Key(n: nat) | Unhashable

  // The `params` member: an object, or nothing, which counts as an empty one; or some other value.
  datatype Args = Object(id: Key, requestId: Key, body: Payload) | NoObject(body: Payload)

  // One decoded JSON object with "jsonrpc": "2.0". A None member is absent; a null `result` or `error`
  // is one that is there. An error object that has no code is Some(None).
  datatype Json = Json(
    id: Key, name: Option<string>, params: Args, result: Option<Payload>, error: Option<Option<int>>)

  function KeyOf(n: Option<nat>): Key {
    if n.Some? then Key(n.value) else NoKey
  }

  function NumberOf(k: Key): Option<nat> {
    if k.Key? then Some(k.n) else None
  }

  // What a handler gets to see of the `params` member.
  function Decoded(args: Args): Params {
    if args.Object? then Params(NumberOf(args.id), NumberOf(args.requestId), args.body)
    else Params(None, None, args.body)
  }

  function Encoded(params: Params): Args {
    Object(KeyOf(params.id), KeyOf(params.requestId), params.body)
  }

  datatype Msg =
    | Request(id: nat, name: string, params: Params)
    | Response(id: nat, outcome: Outcome)
    | Cancel(id: nat)
    | Delta(id: nat, params: Params)
    | Note(name: string, params: Params)  // a notification that reaches neither table
    | Junk                                  // no method and not a response: reported, then dropped

  predicate IsResponse(j: Json) {
    j.result.Some? || j.error.Some?
  }

  function CodeOf(code: Option<int>): int {
    if code.Some? then code.value else 0
  }

  function Noted(name: string, params: Params): Msg {
    if name == CANCEL_METHOD then
      if params.id.Some? then Cancel(params.id.value) else Note(CANCEL_METHOD, params)
    else if params.requestId.Some? then
      Delta(params.requestId.value, params)
    else
      Note(name, params)
  }

  // `_dispatch` and `_handle_notification`: the order of the tests matters, e.g. an object with both
  // a method and a result is a response. Of an error without a code the number is never looked at.
  function Classify(j: Json): Msg {
    if IsResponse(j) && j.id.Key? then
      Response(j.id.n, if j.error.None? then Value(j.result.value) else Error(CodeOf(j.error.value)))
    else if j.name.Some? && j.id.Key? then
      Request(j.id.n, j.name.value, Decoded(j.params))
    else if j.name.Some? && j.id.NoKey? then
      Noted(j.name.value, Decoded(j.params))
    else
      Junk
  }

  // The parameters of a notification on which handling it raises: no object, or one whose member that
  // is looked up in a table is no key.
  predicate BadArgs(name: string, args: Args) {
    || args.NoObject?
    || (if name == CANCEL_METHOD then args.id.Unhashable? else args.requestId.Unhashable?)
  }

  // `_dispatch` raises: an id is no key, a notification's `params` is no object, or an error that
  // somebody waits for has no code.
  predicate Raises(j: Json, awaited: bool) {
    if IsResponse(j) && !j.id.NoKey? then
      j.id.Unhashable? || (awaited && j.error == Some(None))
    else if j.name.Some? then
      if !j.id.NoKey? then j.id.Unhashable? else BadArgs(j.name.value, j.params)
    else
      false
  }

  // With an id that is no key it raises for whatever is no junk; with a key only for a response somebody
  // waits for whose error has no code; and without an id, whatever else there is, only for a method whose
  // parameters cannot be looked at.
  lemma RaisesExact(j: Json, awaited: bool)
    ensures j.id.Unhashable? ==> (Raises(j, awaited) <==> j.result.Some? || j.error.Some? || j.name.Some?)
    ensures j.id.Key? ==> (Raises(j, awaited) <==> awaited && j.error == Some(None))
    ensures j.id.NoKey? ==> (Raises(j, awaited) <==>
      || (j.name.Some? && j.params.NoObject?)
      || (j.name == Some("$/cancel") && j.params.Object? && j.params.id.Unhashable?)
      || (j.name.Some? && j.name.value != "$/cancel" && j.params.Object? && j.params.requestId.Unhashable?))
  {}

  // Which object is which message: a result or an error makes a response of whatever has an id, even if it
  // names a method; a method and an id make a request; a method alone a cancel, a delta or a plain
  // notification; and nothing else reaches any table.
  lemma ClassifyExact(j: Json, id: nat)
    requires !j.id.Unhashable?
    ensures (exists o :: Classify(j) == Response(id, o)) <==> j.id == Key(id) && (j.result.Some? || j.error.Some?)
    ensures forall v :: Classify(j) == Response(id, Value(v)) <==>
      j.id == Key(id) && j.result == Some(v) && j.error.None?
    ensures forall c :: Classify(j) == Response(id, Error(c)) && j.error != Some(None) <==>
      j.id == Key(id) && j.error == Some(Some(c))
    ensures forall name, params :: Classify(j) == Request(id, name, params) <==>
      j.id == Key(id) && j.result.None? && j.error.None? && j.name == Some(name) && params == Decoded(j.params)
    ensures Classify(j) == Cancel(id) <==>
      j.id.NoKey? && j.name == Some("$/cancel") && j.params.Object? && j.params.id == Key(id)
    ensures forall params :: Classify(j) == Delta(id, params) <==>
      && j.id.NoKey? && j.name.Some? && j.name.value != "$/cancel"
      && j.params.Object? && j.params.requestId == Key(id) && params == Decoded(j.params)
  {
    if j.id == Key(id) && IsResponse(j) { assert Classify(j) == Response(id, Classify(j).outcome); }
  }

  // The request a delta goes to: a `request_id` of its own takes the place of the one it is emitted for.
  function Target(id: nat, params: Params): nat {
    if params.requestId.Some? then params.requestId.value else id
  }

  // The dict literals the codec writes. `contract` names the delta's method.
  function Render(m: Msg, contract: string): Json
    requires !m.Junk?
  {
    match m
    case Request(id, name, params) => Json(Key(id), Some(name), Encoded(params), None, None)
    case Response(id, Value(v)) => Json(Key(id), None, Object(NoKey, NoKey, ""), Some(v), None)
    case Response(id, Error(c)) => Json(Key(id), None, Object(NoKey, NoKey, ""), None, Some(Some(c)))
    case Cancel(id) => Json(NoKey, Some(CANCEL_METHOD), Object(Key(id), NoKey, ""), None, None)
    case Delta(id, params) =>
      Json(NoKey, Some(contract + ".delta"), Encoded(params.(requestId := Some(Target(id, params)))), None, None)
    case Note(name, params) => Json(NoKey, Some(name), Encoded(params), None, None)
  }

  // The message survives the two codecs.
  predicate Plain(m: Msg) {
    match m
    case Delta(id, params) => params.requestId == Some(id)
    case Note(name, params) => if name == CANCEL_METHOD then params.id.None? else params.requestId.None?
    case _ => true
  }

  // What one codec writes, the peer's codec reads back as the same message, just when a delta carries
  // its own request's id and a notification is not taken for a cancel or a delta. A delta is read as one
  // of its request, or of the one that its own parameters name; and nothing a codec writes makes its
  // peer's dispatcher raise.
  lemma ClassifyRender(m: Msg, contract: string)
    requires !m.Junk?
    ensures Classify(Render(m, contract)) == m <==> Plain(m)
    ensures m.Delta? && m.params.requestId.None? ==>
      Classify(Render(m, contract)) == Delta(m.id, m.params.(requestId := Some(m.id)))
    ensures m.Delta? && m.params.requestId.Some? ==>
      Classify(Render(m, contract)) == Delta(m.params.requestId.value, m.params)
    ensures forall awaited :: !Raises(Render(m, contract), awaited)
  {
    if m.Delta? {
      var name := contract + ".delta";
      assert name[|name| - 1] == 'a';
      assert CANCEL_METHOD[|CANCEL_METHOD| - 1] == 'l';
    }
  }
}
