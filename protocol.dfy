/** The envelope codec and the vocabulary shared by both versions of the RPC
    layer: the `payload` encoder, the destructuring of a parsed message into
    its six fields, handler outcomes, and the effects an operation has on the
    outside world (sends, publications, handler calls, promise settlements). */
module Protocol {
  import opened Json

  /** The identity of a socket (or of the server, for publications). */
  type Conn = nat

  /** The protocol tag every outbound envelope carries. */
  const Tag: Value := Str("2.0")

  /** The six fields messageReceived destructures from a parsed message; a
      field the message does not have is `Undefined`. */
  datatype Envelope = Envelope(
    jsonrpc: Value, methodName: Value, params: Value, id: Value, result: Value, error: Value)

  /** The value of `args[k]` in JavaScript: undefined when the key is absent. */
  function Get(args: map<string, Value>, k: string): Value {
    if k in args then args[k] else Undefined
  }

  /** payload(args): the object { jsonrpc: '2.0', ...args } as JSON.stringify
      puts it on the wire. The spread lets `args` override the tag, and
      JSON.stringify omits every key whose value is undefined. */
  function Payload(args: map<string, Value>): (msg: Value)
    ensures msg.Obj?
    ensures forall k :: k in msg.fields <==>
      (k in args && args[k] != Undefined) || (k == "jsonrpc" && "jsonrpc" !in args)
    ensures forall k :: k in msg.fields ==> msg.fields[k] == (if k in args then args[k] else Tag)
  {
    var merged := map["jsonrpc" := Tag] + args;
    Obj(map k | k in merged && merged[k] != Undefined :: merged[k])
  }

  /** `({ jsonrpc, method, params, id, result, error } = JSON.parse(message))`
      inside try/catch. `None` is a parse failure: the exception is swallowed
      and every field stays undefined. Destructuring null also throws, and
      destructuring any other non-object yields undefined fields. */
  function Destructure(parsed: Option<Value>): (e: Envelope)
    ensures !(parsed.Some? && parsed.value.Obj?) ==>
      e == Envelope(Undefined, Undefined, Undefined, Undefined, Undefined, Undefined)
    ensures parsed.Some? && parsed.value.Obj? ==>
      e.jsonrpc == Get(parsed.value.fields, "jsonrpc") &&
      Fields(e) == map k | k in Fields(e) :: Get(parsed.value.fields, k)
  {
    var v := if parsed.Some? then parsed.value else Undefined;
    if v.Obj? then
      Envelope(Get(v.fields, "jsonrpc"), Get(v.fields, "method"), Get(v.fields, "params"),
               Get(v.fields, "id"), Get(v.fields, "result"), Get(v.fields, "error"))
    else
      Envelope(Undefined, Undefined, Undefined, Undefined, Undefined, Undefined)
  }

  /** The receiving side of `payload`: decoding an encoded envelope gives the
      tag and exactly the fields that were supplied (absent or undefined ones
      read back as undefined). */
  lemma DecodePayload(args: map<string, Value>)
    requires "jsonrpc" !in args
    ensures Destructure(Some(Payload(args))) ==
      Envelope(Tag, Get(args, "method"), Get(args, "params"), Get(args, "id"),
               Get(args, "result"), Get(args, "error"))
  {
  }

  /** The five fields an endpoint may supply to `payload`. */
  function Fields(e: Envelope): map<string, Value> {
    map["method" := e.methodName, "params" := e.params, "id" := e.id,
        "result" := e.result, "error" := e.error]
  }

  /** Decoding, re-encoding and decoding again gives the first decoding,
      field for field, for every message that carries the protocol tag. */
  lemma ReencodeIdempotent(parsed: Option<Value>)
    requires Destructure(parsed).jsonrpc == Tag
    ensures Destructure(Some(Payload(Fields(Destructure(parsed))))) == Destructure(parsed)
  {
    DecodePayload(Fields(Destructure(parsed)));
  }

  /** `if (!method && id)`: a reply to a remoteFunc call, once the tag is present. */
  predicate IsReply(e: Envelope) {
    Truthy(e.jsonrpc) && !Truthy(e.methodName) && Truthy(e.id)
  }

  /** `else if (method)`: a request to run a method, once the tag is present. */
  predicate IsInvocation(e: Envelope) {
    Truthy(e.jsonrpc) && Truthy(e.methodName)
  }

  /** A tagged message is a reply, an invocation, or neither, never both:
      a reply has no truthy `method`; a message with neither has no truthy
      `method` and no truthy `id`. */
  lemma Classify(e: Envelope)
    ensures !(IsReply(e) && IsInvocation(e))
    ensures Truthy(e.jsonrpc) && !IsReply(e) && !IsInvocation(e) ==> !Truthy(e.methodName) && !Truthy(e.id)
  {
  }

  /** What calling a handler gives: a plain return value, a thrown
      exception, or a promise whose fate is one of three. */
  datatype Fate = Fulfils(value: Value) | Rejects | Stalls
  datatype Outcome = Returns(value: Value) | Throws | Promise(fate: Fate)

  /** A handler is called with (params, ws). The registry maps method names
      to handlers; it is never changed by the RPC layer. */
  type Handler = (Value, Conn) -> Outcome
  type Registry = map<string, Handler>

  /** How a promise returned by `remoteFunc` is settled. */
  datatype Settlement = Resolve(value: Value) | Reject(reason: string)

  /** An observable effect, in the order it happens. `Send` is ws.send with
      the envelope before serialization; `Publish` is one envelope handed to
      the publish primitive for a room; `Invoke` is one call of a handler;
      `Settle` is the resolve or reject of the remoteFunc promise with that id. */
  datatype Effect =
    | Send(to: Conn, msg: Value)
    | Publish(via: Conn, room: string, msg: Value)
    | Invoke(methodName: string, params: Value, ws: Conn)
    | Settle(id: nat, settlement: Settlement)

  /** How many times the promise with this id is settled by `effects`. */
  function Settlements(id: nat, effects: seq<Effect>): nat
    decreases |effects|
  {
    if effects == [] then 0
    else (if effects[0].Settle? && effects[0].id == id then 1 else 0) + Settlements(id, effects[1..])
  }

  /** Effects without a settlement settle nothing. */
  lemma {:induction false} NoSettlements(id: nat, effects: seq<Effect>)
    requires forall i :: 0 <= i < |effects| ==> !effects[i].Settle?
    ensures Settlements(id, effects) == 0
    decreases |effects|
  {
    if effects != [] {
      NoSettlements(id, effects[1..]);
    }
  }

  lemma {:induction false} SettlementsAppend(id: nat, a: seq<Effect>, b: seq<Effect>)
    ensures Settlements(id, a + b) == Settlements(id, a) + Settlements(id, b)
    decreases |a|
  {
    if a != [] {
      assert (a + b)[1..] == a[1..] + b;
      SettlementsAppend(id, a[1..], b);
    } else {
      assert a + b == b;
    }
  }
}
