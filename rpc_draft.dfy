/** The older draft of the RPC layer. It has the same module-level counter
    and table as the current version, but `remoteFunc` has no timeout and no
    reject path, a reply is always resolved (its `error` field is never
    read), a handler's promise is not awaited, and a call of an unknown
    method gets no answer at all. */
module RpcDraft {
  import opened Json
  import opened Protocol
  import opened Calls
  import Rpc

  // remoteProc, publishProc and the request-sending part of remoteFunc are
  // textually those of the current version: Rpc.RemoteProc, Rpc.PublishProc
  // and Rpc.FuncStep model both. The draft only lacks the timer.

  /** The value JSON.stringify sees for `result` when the handler's return
      value is used as it is: a promise has no own enumerable properties and
      is sent as `{}`; None when the handler throws, which aborts
      messageReceived. */
  function Unawaited(o: Outcome): (r: Option<Value>)
    ensures r.None? <==> o.Throws?
    ensures o.Returns? ==> r == Some(o.value)
    ensures o.Promise? ==> r == Some(Obj(map[]))
  {
    match o
    case Returns(v) => Some(v)
    case Throws => None
    case Promise(_) => Some(Obj(map[]))
  }

  /** The two versions send the same result unless the handler returns a
      promise: the draft then sends `{}`, the current version the value the
      promise is fulfilled with, or nothing when it rejects or never settles. */
  lemma AwaitedVersusUnawaited(o: Outcome)
    ensures !o.Promise? ==> Rpc.Awaited(o) == Unawaited(o)
    ensures o.Promise? ==> Unawaited(o) == Some(Obj(map[])) && (Rpc.Awaited(o).Some? <==> o.fate.Fulfils?)
  {
  }

  /** messageReceived(handlers, message, ws) of the draft. */
  function ReceiveStep(t: Table, handlers: Registry, message: Option<Value>, ws: Conn): (r: Step)
    requires WellFormed(t)
    ensures WellFormed(r.table) && Accounted(t, r.table, r.effects)
    ensures r.table.nextFuncId == t.nextFuncId && r.table.pending <= t.pending
    // unparseable, untagged, or neither a reply nor an invocation: dropped
    ensures var e := Destructure(message);
      !IsReply(e) && !IsInvocation(e) ==> r == Step(t, [])
    // a reply for a waiting id resolves it with `result`, whatever `error` holds
    ensures var e := Destructure(message);
      IsReply(e) && IdKey(e.id).Some? && IdKey(e.id).value in t.pending ==>
        var k := IdKey(e.id).value;
        r.table.pending == t.pending - {k} && r.effects == [Settle(k, Resolve(e.result))]
    // a reply for an id that is not waiting: nothing happens
    ensures var e := Destructure(message);
      IsReply(e) && !(IdKey(e.id).Some? && IdKey(e.id).value in t.pending) ==> r == Step(t, [])
    // a method name that cannot be converted to a key: `handlers[method]`
    // throws, nothing happens
    ensures var e := Destructure(message);
      IsInvocation(e) && ToStr(e.methodName).None? ==> r == Step(t, [])
    // a registered method: the handler runs once; a reply goes back exactly
    // when the id is truthy and the handler did not throw
    ensures var e := Destructure(message);
      IsInvocation(e) && ToStr(e.methodName).Some? && ToStr(e.methodName).value in handlers ==>
        var name := ToStr(e.methodName).value;
        var v := Unawaited(handlers[name](e.params, ws));
        r.table == t &&
        1 <= |r.effects| <= 2 && r.effects[0] == Invoke(name, e.params, ws) &&
        (|r.effects| == 2 <==> Truthy(e.id) && v.Some?) &&
        (|r.effects| == 2 ==>
          r.effects[1].Send? && r.effects[1].to == ws &&
          Destructure(Some(r.effects[1].msg)) == Envelope(Tag, Undefined, Undefined, e.id, v.value, Undefined))
    // an unregistered method: nothing goes out (the draft only logs it)
    ensures var e := Destructure(message);
      IsInvocation(e) && ToStr(e.methodName).Some? && ToStr(e.methodName).value !in handlers ==> r == Step(t, [])
  {
    var e := Destructure(message);
    if !Truthy(e.jsonrpc) then
      Step(t, [])
    else if !Truthy(e.methodName) && Truthy(e.id) then
      var key := IdKey(e.id);
      if key.Some? && key.value in t.pending then
        SettleAccounted(t, key.value, Resolve(e.result));
        Step(Table(t.nextFuncId, t.pending - {key.value}), [Settle(key.value, Resolve(e.result))])
      else
        Step(t, [])
    else if Truthy(e.methodName) then
      var key := ToStr(e.methodName);
      if key.Some? && key.value in handlers then
        var name := key.value;
        var result := Unawaited(handlers[name](e.params, ws));
        if Truthy(e.id) && result.Some? then
          var args := map["id" := e.id, "result" := result.value];
          DecodePayload(args);
          QuietAccounted(t, [Invoke(name, e.params, ws), Send(ws, Payload(args))]);
          Step(t, [Invoke(name, e.params, ws), Send(ws, Payload(args))])
        else
          QuietAccounted(t, [Invoke(name, e.params, ws)]);
          Step(t, [Invoke(name, e.params, ws)])
      else
        Step(t, [])
    else
      Step(t, [])
  }

  /** The module-level state of the draft: `nextFuncId` and `pendingFuncs`. */
  class DraftModule {
    var nextFuncId: nat
    var pendingFuncs: set<nat>

    function Snapshot(): Table
      reads this
    {
      Table(nextFuncId, pendingFuncs)
    }

    ghost predicate Valid()
      reads this
    {
      WellFormed(Snapshot())
    }

    constructor ()
      ensures Valid() && Snapshot() == Initial
    {
      nextFuncId := 1;
      pendingFuncs := {};
    }

    method RemoteFunc(ws: Conn, methodName: Value, params: Value) returns (id: nat, effects: seq<Effect>)
      requires Valid()
      modifies this
      ensures Valid()
      ensures id == old(nextFuncId) && id !in old(pendingFuncs)
      ensures Step(Snapshot(), effects) == Rpc.FuncStep(old(Snapshot()), ws, methodName, params)
    {
      id := nextFuncId;
      nextFuncId := nextFuncId + 1;
      pendingFuncs := pendingFuncs + {id};
      effects := [Send(ws, Payload(map["method" := methodName, "params" := params, "id" := Num(id)]))];
    }

    method MessageReceived(handlers: Registry, message: Option<Value>, ws: Conn) returns (effects: seq<Effect>)
      requires Valid()
      modifies this
      ensures Valid()
      ensures Step(Snapshot(), effects) == ReceiveStep(old(Snapshot()), handlers, message, ws)
    {
      effects := [];
      var e := Destructure(message);
      if Truthy(e.jsonrpc) {
        if !Truthy(e.methodName) && Truthy(e.id) {
          var key := IdKey(e.id);
          if key.Some? && key.value in pendingFuncs {
            effects := [Settle(key.value, Resolve(e.result))];
          }
          if key.Some? {
            pendingFuncs := pendingFuncs - {key.value};
          }
        } else if Truthy(e.methodName) {
          // a name that cannot be converted to a key makes `handlers[method]` throw
          var key := ToStr(e.methodName);
          if key.Some? && key.value in handlers {
            var name := key.value;
            effects := [Invoke(name, e.params, ws)];
            var result := Unawaited(handlers[name](e.params, ws));
            if Truthy(e.id) && result.Some? {
              effects := effects + [Send(ws, Payload(map["id" := e.id, "result" := result.value]))];
            }
          }
        }
      }
    }
  }

  /** One event the draft reacts to: a remoteFunc call or a message. There
      is no timer. */
  datatype Input =
    | Call(ws: Conn, methodName: Value, params: Value)
    | Deliver(ws: Conn, message: Option<Value>)

  function Apply(t: Table, handlers: Registry, i: Input): (r: Step)
    requires WellFormed(t)
    ensures WellFormed(r.table) && Accounted(t, r.table, r.effects)
    ensures r.table.nextFuncId == t.nextFuncId + (if i.Call? then 1 else 0)
  {
    match i
    case Call(ws, m, p) => Rpc.FuncStep(t, ws, m, p)
    case Deliver(ws, msg) => ReceiveStep(t, handlers, msg, ws)
  }

  function CallCount(inputs: seq<Input>): nat
    decreases |inputs|
  {
    if inputs == [] then 0
    else CallCount(inputs[..|inputs| - 1]) + (if inputs[|inputs| - 1].Call? then 1 else 0)
  }

  /** The draft's reaction to a sequence of events, in order: the run of all
      events but the last, then the last one from the table they leave. The
      counter moves on by exactly one per call. */
  function Run(t: Table, handlers: Registry, inputs: seq<Input>): (r: Step)
    requires WellFormed(t)
    ensures WellFormed(r.table)
    ensures r.table.nextFuncId == t.nextFuncId + CallCount(inputs)
    decreases |inputs|
  {
    if inputs == [] then
      Step(t, [])
    else
      var before := Run(t, handlers, inputs[..|inputs| - 1]);
      var last := Apply(before.table, handlers, inputs[|inputs| - 1]);
      Step(last.table, before.effects + last.effects)
  }

  lemma {:induction false} RunAccounted(t: Table, handlers: Registry, inputs: seq<Input>)
    requires WellFormed(t)
    ensures Accounted(t, Run(t, handlers, inputs).table, Run(t, handlers, inputs).effects)
    decreases |inputs|
  {
    if inputs == [] {
      assert Run(t, handlers, inputs).effects == [];
    } else {
      var before := Run(t, handlers, inputs[..|inputs| - 1]);
      RunAccounted(t, handlers, inputs[..|inputs| - 1]);
      var last := Apply(before.table, handlers, inputs[|inputs| - 1]);
      AccountedChain(t, before.table, last.table, before.effects, last.effects);
    }
  }

  /** No remoteFunc promise of the draft is resolved twice. */
  lemma SettledAtMostOnce(t: Table, handlers: Registry, inputs: seq<Input>, id: nat)
    requires WellFormed(t)
    ensures Settlements(id, Run(t, handlers, inputs).effects) <= 1
    ensures id < t.nextFuncId && id !in t.pending ==> Settlements(id, Run(t, handlers, inputs).effects) == 0
  {
    var r := Run(t, handlers, inputs);
    RunAccounted(t, handlers, inputs);
    AccountedSettlesAtMostOnce(t, r.table, r.effects, id);
  }

  /** The input is a reply that designates the waiting id `k`. */
  predicate Answers(i: Input, k: nat) {
    i.Deliver? && IsReply(Destructure(i.message)) && IdKey(Destructure(i.message).id) == Some(k)
  }

  /** Without a timer, a waiting call stays waiting, unresolved, through any
      run that does not deliver a reply for its id. */
  lemma {:induction false} WaitsUntilAnswered(t: Table, handlers: Registry, inputs: seq<Input>, k: nat)
    requires WellFormed(t) && k in t.pending
    requires forall j :: 0 <= j < |inputs| ==> !Answers(inputs[j], k)
    ensures k in Run(t, handlers, inputs).table.pending
    ensures Settlements(k, Run(t, handlers, inputs).effects) == 0
    decreases |inputs|
  {
    var r := Run(t, handlers, inputs);
    if inputs != [] {
      var prefix := inputs[..|inputs| - 1];
      assert forall j :: 0 <= j < |prefix| ==> prefix[j] == inputs[j];
      WaitsUntilAnswered(t, handlers, prefix, k);
      var before := Run(t, handlers, prefix);
      assert !Answers(inputs[|inputs| - 1], k);
      assert k in Apply(before.table, handlers, inputs[|inputs| - 1]).table.pending;
    }
    RunAccounted(t, handlers, inputs);
    assert Settlements(k, r.effects) + Open(r.table, k) <= Open(t, k);
  }

  /** End to end in the draft: a call of a registered method resolves with
      the handler's value as it was returned; a promise returned by the
      handler arrives as the empty object. */
  lemma CallRoundTrip(t: Table, handlers: Registry, client: Conn, server: Conn, name: string, params: Value)
    requires WellFormed(t) && name != "" && name in handlers
    ensures
      var call := Rpc.FuncStep(t, client, Str(name), params);
      var serve := ReceiveStep(call.table, handlers, Some(call.effects[0].msg), server);
      var v := Unawaited(handlers[name](params, server));
      serve.table == call.table && serve.effects[0] == Invoke(name, params, server) &&
      (v.None? ==> |serve.effects| == 1 && t.nextFuncId in serve.table.pending) &&
      (v.Some? ==>
        |serve.effects| == 2 && serve.effects[1].Send? &&
        ReceiveStep(serve.table, handlers, Some(serve.effects[1].msg), client) ==
          Step(Table(t.nextFuncId + 1, t.pending), [Settle(t.nextFuncId, Resolve(v.value))]))
  {
    var call := Rpc.FuncStep(t, client, Str(name), params);
    IdKeyOfNum(t.nextFuncId);
    assert call.table.pending - {t.nextFuncId} == t.pending;
  }

  /** A call of a method the peer does not have gets no answer: the peer
      sends nothing and the call keeps waiting. */
  lemma MissingMethodUnanswered(t: Table, handlers: Registry, client: Conn, server: Conn, name: string, params: Value)
    requires WellFormed(t) && name != "" && name !in handlers
    ensures
      var call := Rpc.FuncStep(t, client, Str(name), params);
      ReceiveStep(call.table, handlers, Some(call.effects[0].msg), server) == Step(call.table, []) &&
      t.nextFuncId in call.table.pending
  {
  }

  /** The two versions part ways on an error reply for a waiting call: the
      draft resolves it with undefined, while the current version rejects it
      with the error's message, or, when that message cannot be converted to
      a string, throws and leaves the call waiting. */
  lemma ErrorReplyResolvesUndefined(t: Table, handlers: Registry, ws: Conn, k: nat, error: Value)
    requires WellFormed(t) && k in t.pending && Truthy(error)
    ensures
      var reply := Some(Payload(map["id" := Num(k), "error" := error]));
      var after := Table(t.nextFuncId, t.pending - {k});
      ReceiveStep(t, handlers, reply, ws) == Step(after, [Settle(k, Resolve(Undefined))]) &&
      Rpc.ReceiveStep(t, handlers, reply, ws) ==
        if Rpc.ErrorText(error).Some? then Step(after, [Settle(k, Reject(Rpc.ErrorText(error).value))])
        else Step(t, [])
  {
    DecodePayload(map["id" := Num(k), "error" := error]);
    IdKeyOfNum(k);
  }
}
