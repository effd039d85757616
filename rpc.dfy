/** The current version of the RPC layer: the module-level id counter and
    pending-call table, the fire-and-forget senders, `remoteFunc` with its
    timeout, and the `messageReceived` dispatcher. Every operation is first
    a function from the old table to a `Step` (new table and effects), whose
    contract states what the operation promises; the class `RpcModule` holds
    the module-global state and its methods update it in place, each proved
    to agree with its function. */
module Rpc {
  import opened Json
  import opened Protocol
  import opened Calls

  /** The message of the Error a timed-out call is rejected with. */
  const TimedOut: string := "remoteFunc() timed out"

  /** The error object sent back for a method the registry does not have. */
  const MethodNotFound: Value := Obj(map["code" := Num(-32601), "message" := Str("Method not found")])

  /** remoteProc(method, params, ws): one envelope without an id, sent on ws. */
  function RemoteProc(ws: Conn, methodName: Value, params: Value): (e: Effect)
    ensures e.Send? && e.to == ws
    ensures e.msg.Obj? && "id" !in e.msg.fields
    ensures Destructure(Some(e.msg)) == Envelope(Tag, methodName, params, Undefined, Undefined, Undefined)
  {
    var args := map["method" := methodName, "params" := params];
    DecodePayload(args);
    Send(ws, Payload(args))
  }

  /** publishProc(room, method, params, wsOrServer): one envelope without an
      id, handed to the publish primitive of `via` for `room`. */
  function PublishProc(via: Conn, room: string, methodName: Value, params: Value): (e: Effect)
    ensures e.Publish? && e.via == via && e.room == room
    ensures e.msg.Obj? && "id" !in e.msg.fields
    ensures Destructure(Some(e.msg)) == Envelope(Tag, methodName, params, Undefined, Undefined, Undefined)
  {
    var args := map["method" := methodName, "params" := params];
    DecodePayload(args);
    Publish(via, room, Payload(args))
  }

  /** remoteFunc(method, params, timeout, ws), up to the send: the call takes
      the counter as its id, the counter moves on, the id starts waiting, and
      the request carrying that id goes out on ws. */
  function FuncStep(t: Table, ws: Conn, methodName: Value, params: Value): (r: Step)
    requires WellFormed(t)
    ensures WellFormed(r.table) && Accounted(t, r.table, r.effects)
    ensures t.nextFuncId !in t.pending
    ensures r.table.nextFuncId == t.nextFuncId + 1
    ensures r.table.pending == t.pending + {t.nextFuncId}
    ensures |r.effects| == 1 && r.effects[0].Send? && r.effects[0].to == ws
    ensures Destructure(Some(r.effects[0].msg)) ==
      Envelope(Tag, methodName, params, Num(t.nextFuncId), Undefined, Undefined)
  {
    var id := t.nextFuncId;
    var args := map["method" := methodName, "params" := params, "id" := Num(id)];
    DecodePayload(args);
    IssueAccounted(t, Send(ws, Payload(args)));
    Step(Table(id + 1, t.pending + {id}), [Send(ws, Payload(args))])
  }

  /** The setTimeout callback of the call with this id: if the id is still
      waiting it is removed and its promise rejected with a timeout error;
      once the call is settled the callback does nothing. */
  function ExpireStep(t: Table, id: nat): (r: Step)
    requires WellFormed(t)
    ensures WellFormed(r.table) && Accounted(t, r.table, r.effects)
    ensures r.table.nextFuncId == t.nextFuncId
    ensures id in t.pending ==>
      r.table.pending == t.pending - {id} && r.effects == [Settle(id, Reject(TimedOut))]
    ensures id !in t.pending ==> r == Step(t, [])
  {
    if id in t.pending then
      SettleAccounted(t, id, Reject(TimedOut));
      Step(Table(t.nextFuncId, t.pending - {id}), [Settle(id, Reject(TimedOut))])
    else
      Step(t, [])
  }

  /** The message of `new Error(error.message)`: only an object can carry a
      `message` property, and Error(undefined) has the empty message. None
      when the constructor throws because the message cannot be converted to
      a string. */
  function ErrorText(error: Value): (r: Option<string>)
    ensures !(error.Obj? && "message" in error.fields) ==> r == Some("")
    ensures r.None? <==> error.Obj? && "message" in error.fields && Unprintable(error.fields["message"])
    ensures error.Obj? && "message" in error.fields && error.fields["message"].Str? ==>
      r == Some(error.fields["message"].s)
  {
    var m := if error.Obj? then Get(error.fields, "message") else Undefined;
    if m.Undefined? then Some("") else ToStr(m)
  }

  /** What `result` holds after `if (result instanceof Promise) result =
      await result`; None when messageReceived stops there because the
      handler threw, or its promise rejected or never settles. */
  function Awaited(o: Outcome): (r: Option<Value>)
    ensures r.Some? <==> o.Returns? || (o.Promise? && o.fate.Fulfils?)
    ensures o.Returns? ==> r == Some(o.value)
    ensures o.Promise? && o.fate.Fulfils? ==> r == Some(o.fate.value)
  {
    match o
    case Returns(v) => Some(v)
    case Throws => None
    case Promise(Fulfils(v)) => Some(v)
    case Promise(_) => None
  }

  /** messageReceived(handlers, message, ws). `message` is the parsed text,
      None when JSON.parse fails. */
  function ReceiveStep(t: Table, handlers: Registry, message: Option<Value>, ws: Conn): (r: Step)
    requires WellFormed(t)
    ensures WellFormed(r.table) && Accounted(t, r.table, r.effects)
    ensures r.table.nextFuncId == t.nextFuncId && r.table.pending <= t.pending
    // unparseable, untagged, or neither a reply nor an invocation: dropped
    ensures var e := Destructure(message);
      !IsReply(e) && !IsInvocation(e) ==> r == Step(t, [])
    // a reply for a waiting id: exactly that entry is removed and settled
    // once, unless building the Error throws, which happens before the delete
    ensures var e := Destructure(message);
      IsReply(e) && IdKey(e.id).Some? && IdKey(e.id).value in t.pending ==>
        var k := IdKey(e.id).value;
        if Truthy(e.error) && ErrorText(e.error).None? then
          r == Step(t, [])
        else
          r.table.pending == t.pending - {k} &&
          r.effects == [Settle(k, if Truthy(e.error) then Reject(ErrorText(e.error).value) else Resolve(e.result))]
    // a reply for an id that is not waiting: nothing happens
    ensures var e := Destructure(message);
      IsReply(e) && !(IdKey(e.id).Some? && IdKey(e.id).value in t.pending) ==> r == Step(t, [])
    // a method name that cannot be converted to a key: `in` throws, nothing happens
    ensures var e := Destructure(message);
      IsInvocation(e) && ToStr(e.methodName).None? ==> r == Step(t, [])
    // a registered method: the handler runs once; a reply goes back exactly
    // when the id is truthy and the handler's value becomes available
    ensures var e := Destructure(message);
      IsInvocation(e) && ToStr(e.methodName).Some? && ToStr(e.methodName).value in handlers ==>
        var name := ToStr(e.methodName).value;
        var v := Awaited(handlers[name](e.params, ws));
        r.table == t &&
        1 <= |r.effects| <= 2 && r.effects[0] == Invoke(name, e.params, ws) &&
        (|r.effects| == 2 <==> Truthy(e.id) && v.Some?) &&
        (|r.effects| == 2 ==>
          r.effects[1].Send? && r.effects[1].to == ws &&
          Destructure(Some(r.effects[1].msg)) == Envelope(Tag, Undefined, Undefined, e.id, v.value, Undefined))
    // an unregistered method: a -32601 error goes back, with the id if there is one
    ensures var e := Destructure(message);
      IsInvocation(e) && ToStr(e.methodName).Some? && ToStr(e.methodName).value !in handlers ==>
        r.table == t && |r.effects| == 1 && r.effects[0].Send? && r.effects[0].to == ws &&
        Destructure(Some(r.effects[0].msg)) == Envelope(Tag, Undefined, Undefined, e.id, Undefined, MethodNotFound)
  {
    var e := Destructure(message);
    if IsReply(e) then ReplyStep(t, e)
    else if IsInvocation(e) then InvokeStep(t, handlers, e, ws)
    else Step(t, [])
  }

  /** The reply branch of messageReceived (`!method && id`): the waiting
      entry the id designates is settled and deleted; `new Error(...)`
      throwing leaves it in place. */
  function ReplyStep(t: Table, e: Envelope): (r: Step)
    requires WellFormed(t) && IsReply(e)
    ensures WellFormed(r.table) && Accounted(t, r.table, r.effects)
    ensures r.table.nextFuncId == t.nextFuncId && r.table.pending <= t.pending
    ensures IdKey(e.id).Some? && IdKey(e.id).value in t.pending ==>
      var k := IdKey(e.id).value;
      if Truthy(e.error) && ErrorText(e.error).None? then
        r == Step(t, [])
      else
        r.table.pending == t.pending - {k} &&
        r.effects == [Settle(k, if Truthy(e.error) then Reject(ErrorText(e.error).value) else Resolve(e.result))]
    ensures !(IdKey(e.id).Some? && IdKey(e.id).value in t.pending) ==> r == Step(t, [])
  {
    var key := IdKey(e.id);
    if key.Some? && key.value in t.pending then
      if Truthy(e.error) && ErrorText(e.error).None? then
        Step(t, [])
      else
        var s := if Truthy(e.error) then Reject(ErrorText(e.error).value) else Resolve(e.result);
        SettleAccounted(t, key.value, s);
        Step(Table(t.nextFuncId, t.pending - {key.value}), [Settle(key.value, s)])
    else
      Step(t, [])
  }

  /** The invocation branch of messageReceived (`method` truthy): run the
      registered handler and answer when there is an id, or answer -32601
      for a name the registry does not have. The table is never touched. */
  function InvokeStep(t: Table, handlers: Registry, e: Envelope, ws: Conn): (r: Step)
    requires WellFormed(t) && IsInvocation(e)
    ensures r.table == t && Accounted(t, r.table, r.effects)
    ensures ToStr(e.methodName).None? ==> r == Step(t, [])
    ensures ToStr(e.methodName).Some? && ToStr(e.methodName).value in handlers ==>
      var name := ToStr(e.methodName).value;
      var v := Awaited(handlers[name](e.params, ws));
      1 <= |r.effects| <= 2 && r.effects[0] == Invoke(name, e.params, ws) &&
      (|r.effects| == 2 <==> Truthy(e.id) && v.Some?) &&
      (|r.effects| == 2 ==>
        r.effects[1].Send? && r.effects[1].to == ws &&
        Destructure(Some(r.effects[1].msg)) == Envelope(Tag, Undefined, Undefined, e.id, v.value, Undefined))
    ensures ToStr(e.methodName).Some? && ToStr(e.methodName).value !in handlers ==>
      |r.effects| == 1 && r.effects[0].Send? && r.effects[0].to == ws &&
      Destructure(Some(r.effects[0].msg)) == Envelope(Tag, Undefined, Undefined, e.id, Undefined, MethodNotFound)
  {
    var key := ToStr(e.methodName);
    if key.None? then
      Step(t, [])
    else if key.value in handlers then
      var name := key.value;
      var result := Awaited(handlers[name](e.params, ws));
      if Truthy(e.id) && result.Some? then
        var args := map["id" := e.id, "result" := result.value];
        DecodePayload(args);
        QuietAccounted(t, [Invoke(name, e.params, ws), Send(ws, Payload(args))]);
        Step(t, [Invoke(name, e.params, ws), Send(ws, Payload(args))])
      else
        QuietAccounted(t, [Invoke(name, e.params, ws)]);
        Step(t, [Invoke(name, e.params, ws)])
    else
      var args := map["id" := e.id, "error" := MethodNotFound];
      DecodePayload(args);
      QuietAccounted(t, [Send(ws, Payload(args))]);
      Step(t, [Send(ws, Payload(args))])
  }

  /** The module-level state of the current version: `nextFuncId` and
      `pendingFuncs`, shared by every socket of the process. */
  class RpcModule {
    var nextFuncId: nat
    var pendingFuncs: set<nat>

    function Snapshot(): Table
      reads this
    {
      Table(nextFuncId, pendingFuncs)
    }

    ghost predicate Valid()
      reads this
    {
      WellFormed(Snapshot())
    }

    constructor ()
      ensures Valid() && Snapshot() == Initial
    {
      nextFuncId := 1;
      pendingFuncs := {};
    }

    method RemoteFunc(ws: Conn, methodName: Value, params: Value) returns (id: nat, effects: seq<Effect>)
      requires Valid()
      modifies this
      ensures Valid()
      ensures id == old(nextFuncId) && id !in old(pendingFuncs)
      ensures Step(Snapshot(), effects) == FuncStep(old(Snapshot()), ws, methodName, params)
    {
      id := nextFuncId;
      nextFuncId := nextFuncId + 1;
      pendingFuncs := pendingFuncs + {id};
      effects := [Send(ws, Payload(map["method" := methodName, "params" := params, "id" := Num(id)]))];
    }

    method TimerFired(id: nat) returns (effects: seq<Effect>)
      requires Valid()
      modifies this
      ensures Valid()
      ensures Step(Snapshot(), effects) == ExpireStep(old(Snapshot()), id)
    {
      effects := [];
      if id in pendingFuncs {
        pendingFuncs := pendingFuncs - {id};
        effects := [Settle(id, Reject(TimedOut))];
      }
    }

    method MessageReceived(handlers: Registry, message: Option<Value>, ws: Conn) returns (effects: seq<Effect>)
      requires Valid()
      modifies this
      ensures Valid()
      ensures Step(Snapshot(), effects) == ReceiveStep(old(Snapshot()), handlers, message, ws)
    {
      effects := [];
      var e := Destructure(message);
      if Truthy(e.jsonrpc) {
        if !Truthy(e.methodName) && Truthy(e.id) {
          var key := IdKey(e.id);
          if key.Some? && key.value in pendingFuncs {
            var text := ErrorText(e.error);
            if !Truthy(e.error) {
              effects := [Settle(key.value, Resolve(e.result))];
              pendingFuncs := pendingFuncs - {key.value};
            } else if text.Some? {
              effects := [Settle(key.value, Reject(text.value))];
              pendingFuncs := pendingFuncs - {key.value};
            }
          }
        } else if Truthy(e.methodName) {
          // a name that cannot be converted to a key makes `in` throw
          var key := ToStr(e.methodName);
          if key.Some? && key.value in handlers {
            var name := key.value;
            effects := [Invoke(name, e.params, ws)];
            var result := Awaited(handlers[name](e.params, ws));
            if Truthy(e.id) && result.Some? {
              effects := effects + [Send(ws, Payload(map["id" := e.id, "result" := result.value]))];
            }
          } else if key.Some? {
            effects := [Send(ws, Payload(map["id" := e.id, "error" := MethodNotFound]))];
          }
        }
      }
    }
  }

  /** One event the module reacts to: a remoteFunc call, the firing of the
      timer of the call with that id, or a message arriving on a socket. */
  datatype Input =
    | Call(ws: Conn, methodName: Value, params: Value)
    | Expire(id: nat)
    | Deliver(ws: Conn, message: Option<Value>)

  function Apply(t: Table, handlers: Registry, i: Input): (r: Step)
    requires WellFormed(t)
    ensures WellFormed(r.table) && Accounted(t, r.table, r.effects)
    ensures r.table.nextFuncId == t.nextFuncId + (if i.Call? then 1 else 0)
  {
    match i
    case Call(ws, m, p) => FuncStep(t, ws, m, p)
    case Expire(id) => ExpireStep(t, id)
    case Deliver(ws, msg) => ReceiveStep(t, handlers, msg, ws)
  }

  function CallCount(inputs: seq<Input>): nat
    decreases |inputs|
  {
    if inputs == [] then 0
    else CallCount(inputs[..|inputs| - 1]) + (if inputs[|inputs| - 1].Call? then 1 else 0)
  }

  /** The module's reaction to a sequence of events, in order: the run of
      all events but the last, then the last one from the table they leave.
      The counter moves on by exactly one per call. */
  function Run(t: Table, handlers: Registry, inputs: seq<Input>): (r: Step)
    requires WellFormed(t)
    ensures WellFormed(r.table)
    ensures r.table.nextFuncId == t.nextFuncId + CallCount(inputs)
    decreases |inputs|
  {
    if inputs == [] then
      Step(t, [])
    else
      var before := Run(t, handlers, inputs[..|inputs| - 1]);
      var last := Apply(before.table, handlers, inputs[|inputs| - 1]);
      Step(last.table, before.effects + last.effects)
  }

  lemma {:induction false} RunAccounted(t: Table, handlers: Registry, inputs: seq<Input>)
    requires WellFormed(t)
    ensures Accounted(t, Run(t, handlers, inputs).table, Run(t, handlers, inputs).effects)
    decreases |inputs|
  {
    if inputs == [] {
      assert Run(t, handlers, inputs).effects == [];
    } else {
      var before := Run(t, handlers, inputs[..|inputs| - 1]);
      RunAccounted(t, handlers, inputs[..|inputs| - 1]);
      var last := Apply(before.table, handlers, inputs[|inputs| - 1]);
      AccountedChain(t, before.table, last.table, before.effects, last.effects);
    }
  }

  /** Whatever the order in which calls, timer firings and messages arrive,
      no remoteFunc promise is settled twice, and one already settled before
      the run (by its reply or its timer) is never settled again. */
  lemma SettledAtMostOnce(t: Table, handlers: Registry, inputs: seq<Input>, id: nat)
    requires WellFormed(t)
    ensures Settlements(id, Run(t, handlers, inputs).effects) <= 1
    ensures id < t.nextFuncId && id !in t.pending ==> Settlements(id, Run(t, handlers, inputs).effects) == 0
  {
    var r := Run(t, handlers, inputs);
    RunAccounted(t, handlers, inputs);
    AccountedSettlesAtMostOnce(t, r.table, r.effects, id);
  }

  /** A run that ends with one more event is the run before it followed by
      that event's step: the effects of a run only ever grow at the end. */
  lemma RunThenEvent(t: Table, handlers: Registry, a: seq<Input>, i: Input)
    requires WellFormed(t)
    ensures
      var before := Run(t, handlers, a);
      var last := Apply(before.table, handlers, i);
      Run(t, handlers, a + [i]) == Step(last.table, before.effects + last.effects)
  {
    assert (a + [i])[..|a + [i]| - 1] == a;
  }

  /** The call made after the events `a` takes the id `t.nextFuncId +
      CallCount(a)`: that id was not waiting, it starts waiting, and the
      request sent for the call carries it (by RunThenEvent, the run of `a`
      followed by the call is the run of `a` followed by this step). From the
      initial state, the calls therefore get the ids 1, 2, 3, ... in the
      order they are made, whatever else happens between them. */
  lemma CallGetsId(t: Table, handlers: Registry, a: seq<Input>, ws: Conn, methodName: Value, params: Value)
    requires WellFormed(t)
    ensures
      var before := Run(t, handlers, a).table;
      before.nextFuncId == t.nextFuncId + CallCount(a) && before.nextFuncId !in before.pending
    ensures
      var before := Run(t, handlers, a).table;
      var call := Apply(before, handlers, Call(ws, methodName, params));
      call.table.pending == before.pending + {before.nextFuncId} &&
      |call.effects| == 1 && call.effects[0].Send? && call.effects[0].to == ws &&
      Destructure(Some(call.effects[0].msg)) == Envelope(Tag, methodName, params, Num(before.nextFuncId), Undefined, Undefined)
  {
    IssuesNextId(Run(t, handlers, a).table, handlers, ws, methodName, params);
  }

  lemma IssuesNextId(t: Table, handlers: Registry, ws: Conn, methodName: Value, params: Value)
    requires WellFormed(t)
    ensures
      var call := Apply(t, handlers, Call(ws, methodName, params));
      call.table.pending == t.pending + {t.nextFuncId} &&
      |call.effects| == 1 && call.effects[0].Send? && call.effects[0].to == ws &&
      Destructure(Some(call.effects[0].msg)) == Envelope(Tag, methodName, params, Num(t.nextFuncId), Undefined, Undefined)
  {
  }

  /** End to end through one shared module state: a client calls a
      registered method, the server runs the handler and replies, and the
      client's promise resolves with exactly the handler's value. When the
      handler's value never becomes available, no reply is sent and the call
      stays waiting for its timer. */
  lemma CallRoundTrip(t: Table, handlers: Registry, client: Conn, server: Conn, name: string, params: Value)
    requires WellFormed(t) && name != "" && name in handlers
    ensures
      var call := FuncStep(t, client, Str(name), params);
      var serve := ReceiveStep(call.table, handlers, Some(call.effects[0].msg), server);
      var v := Awaited(handlers[name](params, server));
      serve.table == call.table && serve.effects[0] == Invoke(name, params, server) &&
      (v.None? ==> |serve.effects| == 1 && t.nextFuncId in serve.table.pending) &&
      (v.Some? ==>
        |serve.effects| == 2 && serve.effects[1].Send? &&
        ReceiveStep(serve.table, handlers, Some(serve.effects[1].msg), client) ==
          Step(Table(t.nextFuncId + 1, t.pending), [Settle(t.nextFuncId, Resolve(v.value))]))
  {
    var call := FuncStep(t, client, Str(name), params);
    var serve := ReceiveStep(call.table, handlers, Some(call.effects[0].msg), server);
    IdKeyOfNum(t.nextFuncId);
    assert call.table.pending - {t.nextFuncId} == t.pending;
  }

  /** A call of the method "" sends a request whose `method` is falsy, so a
      peer sharing the table reads it as a reply to that very call: the
      caller's own promise resolves with undefined, and no handler runs,
      whatever the registry holds. */
  lemma EmptyMethodSelfResolves(t: Table, handlers: Registry, client: Conn, server: Conn, params: Value)
    requires WellFormed(t)
    ensures
      var call := FuncStep(t, client, Str(""), params);
      ReceiveStep(call.table, handlers, Some(call.effects[0].msg), server) ==
        Step(Table(t.nextFuncId + 1, t.pending), [Settle(t.nextFuncId, Resolve(Undefined))])
  {
    IdKeyOfNum(t.nextFuncId);
    assert (t.pending + {t.nextFuncId}) - {t.nextFuncId} == t.pending;
  }

  /** A call of a method the peer does not have is rejected with the
      message "Method not found". */
  lemma MissingMethodRejects(t: Table, handlers: Registry, client: Conn, server: Conn, name: string, params: Value)
    requires WellFormed(t) && name != "" && name !in handlers
    ensures
      var call := FuncStep(t, client, Str(name), params);
      var serve := ReceiveStep(call.table, handlers, Some(call.effects[0].msg), server);
      |serve.effects| == 1 && serve.effects[0].Send? &&
      ReceiveStep(serve.table, handlers, Some(serve.effects[0].msg), client) ==
        Step(Table(t.nextFuncId + 1, t.pending), [Settle(t.nextFuncId, Reject("Method not found"))])
  {
    var call := FuncStep(t, client, Str(name), params);
    IdKeyOfNum(t.nextFuncId);
    assert call.table.pending - {t.nextFuncId} == t.pending;
    assert ErrorText(MethodNotFound) == Some("Method not found");
  }

  /** The race between a timer and a reply, timer first: the call is
      rejected as timed out, and the late reply, whatever it carries and on
      whatever socket it arrives, then settles nothing and changes nothing. */
  lemma TimeoutBeatsReply(t: Table, handlers: Registry, ws: Conn, methodName: Value, params: Value,
                          reply: Option<Value>, from: Conn)
    requires WellFormed(t)
    requires var e := Destructure(reply); IsReply(e) && IdKey(e.id) == Some(t.nextFuncId)
    ensures
      var call := FuncStep(t, ws, methodName, params);
      var fired := ExpireStep(call.table, t.nextFuncId);
      fired.effects == [Settle(t.nextFuncId, Reject(TimedOut))] &&
      ReceiveStep(fired.table, handlers, reply, from) == Step(fired.table, [])
  {
  }

  /** The same race, reply first: the reply settles the call and the timer
      that fires afterwards does nothing. The table is shared by every socket
      of the process, so the reply settles the call on whatever socket it
      arrives, not only on the one the request went out on. The one exception
      is an error whose message cannot be converted to a string: building the
      Error throws before the entry is deleted, so the reply changes nothing
      and the timer still rejects the call as timed out. */
  lemma ReplyBeatsTimeout(t: Table, handlers: Registry, ws: Conn, methodName: Value, params: Value,
                          reply: Option<Value>, from: Conn)
    requires WellFormed(t)
    requires var e := Destructure(reply); IsReply(e) && IdKey(e.id) == Some(t.nextFuncId)
    ensures
      var e := Destructure(reply);
      var call := FuncStep(t, ws, methodName, params);
      var answered := ReceiveStep(call.table, handlers, reply, from);
      if Truthy(e.error) && ErrorText(e.error).None? then
        answered == Step(call.table, []) &&
        ExpireStep(answered.table, t.nextFuncId).effects == [Settle(t.nextFuncId, Reject(TimedOut))]
      else
        |answered.effects| == 1 && answered.effects[0].Settle? && answered.effects[0].id == t.nextFuncId &&
        ExpireStep(answered.table, t.nextFuncId) == Step(answered.table, [])
  {
  }

  /** An error reply whose message is an object with its own `toString` key,
      for a waiting call: `new Error(error.message)` throws, so the call is
      neither settled nor removed, and its timer later rejects it. */
  lemma UnprintableErrorTimesOut(t: Table, handlers: Registry, ws: Conn, methodName: Value, params: Value,
                                 from: Conn, message: map<string, Value>)
    requires WellFormed(t) && "toString" in message
    ensures
      var call := FuncStep(t, ws, methodName, params);
      var reply := Some(Obj(map["jsonrpc" := Tag, "id" := Num(t.nextFuncId),
                                "error" := Obj(map["message" := Obj(message)])]));
      var answered := ReceiveStep(call.table, handlers, reply, from);
      answered == Step(call.table, []) &&
      ExpireStep(answered.table, t.nextFuncId).effects == [Settle(t.nextFuncId, Reject(TimedOut))]
  {
    IdKeyOfNum(t.nextFuncId);
  }

  /** An invocation whose method is an object with its own `toString` key:
      `method in handlers` throws, so no handler runs and nothing is sent,
      not even the -32601 reply, whatever the registry holds. */
  lemma UnprintableMethodIgnored(t: Table, handlers: Registry, ws: Conn, methodName: map<string, Value>, id: Value)
    requires WellFormed(t) && "toString" in methodName
    ensures
      var request := Some(Obj(map["jsonrpc" := Tag, "method" := Obj(methodName), "id" := id]));
      ReceiveStep(t, handlers, request, ws) == Step(t, [])
  {
  }

  /** The remoteFunc call with the next id, sent from `client` and answered
      by `server`, ends with the client's promise settled as `s` and the id
      no longer waiting. */
  ghost predicate CallSettles(t: Table, handlers: Registry, client: Conn, server: Conn,
                              name: string, params: Value, s: Settlement)
    requires WellFormed(t)
  {
    var call := FuncStep(t, client, Str(name), params);
    var serve := ReceiveStep(call.table, handlers, Some(call.effects[0].msg), server);
    |serve.effects| >= 1 && serve.effects[|serve.effects| - 1].Send? &&
    ReceiveStep(serve.table, handlers, Some(serve.effects[|serve.effects| - 1].msg), client) ==
      Step(Table(t.nextFuncId + 1, t.pending), [Settle(t.nextFuncId, s)])
  }

  lemma RegisteredCallSettles(t: Table, handlers: Registry, client: Conn, server: Conn, name: string, params: Value)
    requires WellFormed(t) && name != "" && name in handlers
    requires Awaited(handlers[name](params, server)).Some?
    ensures CallSettles(t, handlers, client, server, name, params, Resolve(Awaited(handlers[name](params, server)).value))
  {
    CallRoundTrip(t, handlers, client, server, name, params);
  }

  lemma MissingCallSettles(t: Table, handlers: Registry, client: Conn, server: Conn, name: string, params: Value)
    requires WellFormed(t) && name != "" && name !in handlers
    ensures CallSettles(t, handlers, client, server, name, params, Reject("Method not found"))
  {
    MissingMethodRejects(t, handlers, client, server, name, params);
  }

  /** Two handlers of the end-to-end test: `echo` returns its params, and
      `asyncFunc` returns a promise fulfilled with 'hi'. Its `addNums` and
      `name` handlers are not needed by the scenarios below. */
  function Echo(params: Value, ws: Conn): Outcome {
    Returns(params)
  }

  function AsyncHi(params: Value, ws: Conn): Outcome {
    Promise(Fulfils(Str("hi")))
  }

  const TestHandlers: Registry := map["echo" := Echo, "asyncFunc" := AsyncHi]

  /** The end-to-end test's echo calls. The test's two addNums calls took
      ids 1 and 2 and have both been answered, so the module holds counter 3
      and no waiting call: echo('hello world') resolves to 'hello world' as
      id 3, and echo() resolves to undefined as id 4. Each call that settles
      leaves the table empty again with the counter one further, which is
      the starting table of the next. */
  lemma EchoScenario(client: Conn, server: Conn)
    ensures CallSettles(Table(3, {}), TestHandlers, client, server, "echo", Str("hello world"), Resolve(Str("hello world")))
    ensures CallSettles(Table(4, {}), TestHandlers, client, server, "echo", Undefined, Resolve(Undefined))
  {
    assert TestHandlers["echo"] == Echo;
    RegisteredCallSettles(Table(3, {}), TestHandlers, client, server, "echo", Str("hello world"));
    RegisteredCallSettles(Table(4, {}), TestHandlers, client, server, "echo", Undefined);
  }

  /** The test's next calls, after name() has taken id 5: asyncFunc()
      resolves to 'hi', the value its promise is fulfilled with, as id 6,
      and missingFunc() is rejected with 'Method not found' as id 7. */
  lemma AsyncAndMissingScenario(client: Conn, server: Conn)
    ensures CallSettles(Table(6, {}), TestHandlers, client, server, "asyncFunc", Undefined, Resolve(Str("hi")))
    ensures CallSettles(Table(7, {}), TestHandlers, client, server, "missingFunc", Undefined, Reject("Method not found"))
  {
    assert TestHandlers["asyncFunc"] == AsyncHi;
    RegisteredCallSettles(Table(6, {}), TestHandlers, client, server, "asyncFunc", Undefined);
    assert "missingFunc" !in TestHandlers;
    MissingCallSettles(Table(7, {}), TestHandlers, client, server, "missingFunc", Undefined);
  }
}
