# Call correlation and dispatch of a small RPC layer over WebSockets

This project models the core of a small JavaScript library for remote calls over WebSockets. The library describes itself as partially conforming to JSON-RPC 2.0. Either endpoint can:

- send a fire-and-forget call (`proc`);
- make a correlated call (`func`), which waits for a reply carrying the same id.

The server side, and each socket it accepts, can also publish a fire-and-forget call to a room (`publishProc`).

Every message is one JSON object tagged `jsonrpc: '2.0'`. The repository holds two versions of the same core, and each is modelled on its own:

- `index.js`, the current version. Its correlated calls time out, and an error reply rejects them.
- `websockets-rpc.js`, the older draft. It has no timeout and no reject path, and it gives no answer to unknown methods.

Both keep their id counter `nextFuncId` and their table `pendingFuncs` at module level. The model therefore has one table per module, shared by every socket of a process.

## Layout

- `json.dfy`, module `Json`. JavaScript values as JSON.parse produces them, plus `undefined`. It covers truthiness and `String(v)`, the conversion used when a value is a property key or an Error message. `ToStr` returns `None` where `String(v)` throws: for an object with its own `toString` key, or an array holding one. `IdKey` gives the pending id a reply's `id` designates: JavaScript object keys are strings, so the number 3, the string "3" and the array [3] all reach the entry of id 3.
- `protocol.dfy`, module `Protocol`. `Payload` is the `payload` encoder. `Destructure` reads the six fields out of a parsed message; a parse failure is `None`. The module also defines:
  - handler outcomes: a plain return, a throw, or a promise that is fulfilled, rejected or never settles;
  - the registry, a map from method name to handler;
  - `Effect`: a send, a publication, one call of a handler, or the settlement of a `func` promise.
- `calls.dfy`, module `Calls`. The pending-call table (`nextFuncId` plus the set of waiting ids) and its well-formedness. `Accounted` is the bookkeeping invariant behind "settled at most once": every settlement of an id is paid for by that id leaving the table for good.
- `rpc.dfy`, module `Rpc` (`index.js`). One function per operation from the old table to a `Step`, which holds the new table and the effects in order:
  - `FuncStep` for `remoteFunc`;
  - `ExpireStep` for the timeout callback;
  - `ReceiveStep` for `messageReceived`.

  The class `RpcModule` holds the module-global state. Its methods update that state in place and are proved equal to those functions. `Run` folds any sequence of calls, timer firings and messages.
- `rpc_draft.dfy`, module `RpcDraft` (`websockets-rpc.js`). It has the same shape, without the timer.

The timer is an explicit event (`Expire` / `TimerFired`) that may fire at any point. The socket's `send` and the server's `publish` become `Send` and `Publish` effects. Handlers are functions of `(params, ws)`.

## Model

| member | source | states |
|---|---|---|
| `Protocol.Payload` | index.js:9 | The envelope has the tag `'2.0'` and exactly the supplied fields whose value is not undefined, each with its supplied value. A supplied `jsonrpc` overrides the tag. |
| `Protocol.DecodePayload` | index.js:61-64 | `Destructure`, the reading of the six fields out of a parsed message (also websockets-rpc.js:56-59), inverts `payload`: it gives back the tag and every supplied field of an encoded envelope. A field that was omitted or undefined reads back as undefined. |
| `Protocol.ReencodeIdempotent` | index.js:61-64 | For a tagged message, `Destructure`, then re-encoding, then `Destructure` again equals the first result, field for field. |
| `Json.FalsyValues` | index.js:65-78 | Exactly undefined, null, false, 0 and "" are falsy, as every `if` of the dispatcher reads them. |
| `Json.ToStr` | index.js:68-74 | `String(v)` throws exactly for an object with its own `toString` key, or an array holding one at any depth. A string converts to itself. |
| `Json.IdKey` | index.js:68 | When a reply id designates a pending id, `String(id)` is that id's decimal form. It designates none when the conversion throws. |
| `Json.DecimalRoundTrip` | index.js:49 | Printing an id in decimal and reading it back gives the id, and the printed form is canonical. So distinct ids never share a key. |
| `Json.IdKeyMatches` | index.js:68 | A reply id reaches the pending entry of id n exactly when its property key is the decimal form of n (both directions). |
| `Json.CanonicalRoundTrip` | index.js:49 | Reading a canonical decimal key and printing the number again gives the same key. So each key designates at most one id. |
| `Calls.IssueAccounted` | index.js:48-49 | Issuing the counter as a new id keeps every waiting id in 1..counter-1 and settles nothing. |
| `Calls.SettleAccounted` | index.js:71 | Removing one waiting id while settling it once keeps the table well formed and is accounted. |
| `Protocol.Classify` | index.js:65-73 | A tagged message is a reply, an invocation, or neither, never both. One that is neither has no truthy `method` and no truthy `id`. |
| `Rpc.RemoteProc` | index.js:38-40 | One send on `ws`, carrying the tag, the method and the params, and no `id`. The draft's remoteProc (websockets-rpc.js:39-41) is the same code and is modelled by this member too. |
| `Rpc.PublishProc` | index.js:42-44 | One publication to the given room, carrying the tag, the method and the params, and no `id`. The draft's publishProc (websockets-rpc.js:43-45) is the same code and is modelled by this member too. |
| `Rpc.FuncStep` | index.js:46-58 | The call takes the counter as its id; that id was not waiting. The counter goes up by one and only that id is added. One request goes out carrying method, params and the id. The draft's remoteFunc (websockets-rpc.js:47-53) does the same, minus the timer, and is modelled by this member too. |
| `Rpc.ExpireStep` | index.js:50-55 | A still-waiting id is removed and rejected with 'remoteFunc() timed out'. For an id that is no longer waiting, nothing changes and nothing is settled. |
| `Rpc.ErrorText` | index.js:69 | `new Error(error.message)` has the empty message unless `error` is an object with a `message` key. It throws exactly when that message cannot be converted to a string. A string message is kept as it is. |
| `Rpc.ReceiveStep` | index.js:60-87 | See the list under this table. |
| `Rpc.ReplyStep` | index.js:66-72 | The reply branch: the waiting entry the id designates is deleted and settled once. It stays, with nothing settled, when `new Error(...)` throws. Any other id changes nothing. |
| `Rpc.InvokeStep` | index.js:73-85 | The invocation branch: the registered handler runs once and is answered when there is an id and a value. A name the registry lacks gets -32601. A name that cannot become a key does nothing. The table is untouched. |
| `Rpc.RpcModule.constructor` | index.js:6-7 | The counter starts at 1 and the table starts empty. |
| `Rpc.RpcModule.RemoteFunc` | index.js:46-58 | Returns the old counter as the id. The new counter, table and sent request are those of `FuncStep`. |
| `Rpc.RpcModule.TimerFired` | index.js:50-55 | The in-place update equals `ExpireStep`. |
| `Rpc.RpcModule.MessageReceived` | index.js:60-87 | The in-place update and the effects equal `ReceiveStep`. |
| `Rpc.Run` | index.js:48 | Over any sequence of events, the counter moves on by exactly one per call, and the table stays well formed. |
| `Rpc.CallGetsId` | index.js:48-56 | After any events `a`, the counter is `t.nextFuncId + CallCount(a)` and that id is not waiting. The next call takes it as its id, adds only it to the table, and sends one request on its socket carrying it. From the initial state the calls get the ids 1, 2, 3, … in order. |
| `Rpc.RunAccounted` | index.js:66-72 | Any run of calls, timer firings and messages keeps the settlement accounting. |
| `Rpc.SettledAtMostOnce` | index.js:50-72 | Whatever the interleaving of replies and timers, no promise is settled twice. A call already settled before the run is never settled again. |
| `Rpc.CallRoundTrip` | index.js:73-81 | A call of a registered method runs the handler once with (params, ws). The client's promise then resolves with exactly the handler's value, awaited if it is a promise. When no value comes (throw, rejection, never settles), no reply is sent and the call keeps waiting. |
| `Rpc.EmptyMethodSelfResolves` | index.js:66-72 | A call of the method `""` sends a request whose `method` is falsy. A peer sharing the table reads it as a reply to that very call, and the caller's promise resolves with undefined without any handler running. |
| `Rpc.MissingMethodRejects` | index.js:82-84 | A call of an unregistered method is answered with a -32601 error. The client's promise is rejected with 'Method not found'. |
| `Rpc.TimeoutBeatsReply` | index.js:50-55 | If the timer fires first, the call is rejected as timed out. The late reply then settles nothing and changes nothing, on whatever socket it arrives. |
| `Rpc.ReplyBeatsTimeout` | index.js:66-72 | If the reply arrives first, it settles the call. The timer that fires afterwards does nothing. Because the table is module-global, a reply settles the call on whatever socket it arrives, not only on the one the request went out on. The exception is an error whose message cannot be converted to a string: the reply changes nothing, and the timer still rejects the call. |
| `Rpc.UnprintableErrorTimesOut` | index.js:68-71 | An error reply whose message is an object with its own `toString` key throws before the delete. The call is neither settled nor removed, and its timer later rejects it as timed out. |
| `Rpc.UnprintableMethodIgnored` | index.js:73-74 | An invocation whose method is an object with its own `toString` key makes `in` throw. No handler runs and nothing is sent, not even the -32601 reply. |
| `Rpc.EchoScenario` | index.test.js:20-21 | After the test's two addNums calls (ids 1 and 2) are answered, echo('hello world') resolves to 'hello world' as id 3, and echo() resolves to undefined as id 4. |
| `Rpc.AsyncAndMissingScenario` | index.test.js:23-30 | After name() has taken id 5, asyncFunc() resolves to 'hi', the value its promise is fulfilled with, as id 6, and missingFunc() is rejected with 'Method not found' as id 7. |
| `RpcDraft.AwaitedVersusUnawaited` | websockets-rpc.js:68-71 | Relates `Awaited`, what `result` holds after the await at index.js:76-77, to `Unawaited`, the handler's value used as it is at websockets-rpc.js:68-71. Both versions send the same result unless the handler returns a promise. The draft then sends `{}`, and the current version sends the fulfilled value, or nothing. |
| `RpcDraft.ReceiveStep` | websockets-rpc.js:55-78 | See the list under this table. |
| `RpcDraft.DraftModule.constructor` | websockets-rpc.js:6-7 | The counter starts at 1 and the table starts empty. |
| `RpcDraft.DraftModule.RemoteFunc` | websockets-rpc.js:47-53 | Returns the old counter as the id. The in-place update equals `Rpc.FuncStep`: the draft issues ids and sends the request exactly as the current version does. |
| `RpcDraft.DraftModule.MessageReceived` | websockets-rpc.js:55-78 | The in-place update and the effects equal `RpcDraft.ReceiveStep`. |
| `RpcDraft.Run` | websockets-rpc.js:49 | The counter moves on by exactly one per call, and the table stays well formed. |
| `RpcDraft.RunAccounted` | websockets-rpc.js:61-64 | Any run of calls and messages keeps the settlement accounting. |
| `RpcDraft.SettledAtMostOnce` | websockets-rpc.js:63-64 | No promise is resolved twice. One resolved before the run is never resolved again. |
| `RpcDraft.WaitsUntilAnswered` | websockets-rpc.js:48-51 | With no timer, a waiting call stays waiting and unresolved through any run that delivers no reply for its id. |
| `RpcDraft.CallRoundTrip` | websockets-rpc.js:66-72 | A call of a registered method runs the handler once and resolves with its return value as it is. A returned promise arrives as `{}`. A throwing handler sends nothing. |
| `RpcDraft.MissingMethodUnanswered` | websockets-rpc.js:73-75 | A call of an unknown method produces no outbound message, and the call keeps waiting. |
| `RpcDraft.ErrorReplyResolvesUndefined` | websockets-rpc.js:56-63 | An error reply for a waiting id resolves it with undefined in the draft. The current version rejects it with the error's message, or throws and leaves the call waiting when that message cannot be converted to a string. |

What `Rpc.ReceiveStep` states:

- The counter never changes, and the table only shrinks.
- An unparseable or untagged message changes nothing and sends nothing. So does a tagged message that is neither a reply nor an invocation.
- A reply (no truthy `method`, truthy `id`) for a waiting id removes exactly that id and settles it once. It is rejected with `error.message` when `error` is truthy, and resolved with `result` otherwise.
- The exception is a truthy `error` whose `message` cannot be converted to a string. `new Error(...)` then throws before the delete, so nothing changes and nothing is settled.
- An id that cannot be converted to a key makes `in` throw, so such a reply changes nothing.
- A reply for any other id changes nothing.
- A registered method runs its handler once with (params, ws). A reply `{id, result}` goes back exactly when `id` is truthy and the awaited value is available.
- An unregistered method sends `{id, error: {code: -32601, message: 'Method not found'}}`, whether or not there is an id.
- A method that cannot be converted to a key makes `in` throw, so nothing is run and nothing is sent.

What `RpcDraft.ReceiveStep` states:

- A reply for a waiting id is resolved with `result`, whatever `error` holds.
- A reply for any other id changes nothing.
- A registered method runs its handler once. A reply goes back exactly when `id` is truthy and the handler did not throw. The result is not awaited, so a promise is sent as `{}`.
- An unregistered method sends nothing.
- A method that cannot be converted to a key makes `handlers[method]` throw, so nothing is run and nothing is sent.
- Noise changes nothing.

### Behaviour of the code worth knowing

- The counter and the table are module-level variables (index.js:6-7), shared by every socket of the process. A reply settles a call whichever socket it arrives on.
- A call of an unknown method gets the error reply whether or not it has an id (index.js:82-84). Without an id, the reply simply has no `id`.
- A handler that throws, or whose promise rejects, produces no reply at all (index.js:76-78). The caller's call waits for its timer.
- Settling a call does not cancel its timer (index.js:50-55). The timer fires later and does nothing, because the callback checks that the id is still waiting.
- A correlated call of the method `""` sends a request whose `method` is falsy, so a peer reads it as a reply (index.js:66). Where both ends share the table, it resolves the caller's own call with undefined before any handler runs.

## Left out

- JSON text: JSON.parse and JSON.stringify are not modelled. The wire unit is the parsed value, and a parse failure is `None`. `Payload` drops undefined only at the top level, the way JSON.stringify does for the envelope's own keys. Inside params and results, undefined is not rewritten.
- Numbers are integers. Fractions, NaN, exponent notation and the loss of precision above 2^53, including a counter past that point, are not modelled.
- Names inherited from Object.prototype are not found in the registry. In the source, `in` and property access also find names such as `toString`, `constructor` and `__proto__`. A method with such a name calls the inherited member, or throws when that member is not a function (`__proto__` is `Object.prototype`, so the call throws and nothing is sent). In the model, such a method counts as unregistered. For `pendingFuncs` the outcome is the same either way: the source throws a TypeError before changing anything.
- Registry entries that are not functions are not modelled. Every registry entry is a handler.
- The timeout duration is left out, including the 30_000 ms default of `ws.func` (index.js:13, index.js:25) and wall-clock time. A timer may fire at any point through `Expire` / `TimerFired`, which covers every duration.
- `wsClient`, `wsServer`, `wsRpcClient` and `wsRpcServer` are transport plumbing and are not modelled. This covers attaching `proc`, `func` and `publishProc` to the socket, chaining the original `open` and `message` handlers, and the `handlers || {}` default.
- The socket's `send`, the server's `publish` and topic membership are not modelled beyond the `Send` and `Publish` effects.
- The draft's `console.error` for an unknown method is not modelled. The model says only that nothing goes out.
- Promise scheduling is not modelled. The reply to an awaited handler is emitted in the same step as its invocation, and microtask ordering is not represented.
- A handler that calls back into the RPC layer while it runs (it receives `ws`) is not modelled.
- Unhandled promise rejections and exceptions that escape `messageReceived` are not modelled. The model records only that no further effect happens.
- `handlers.js`, `server.js`, `client.js` and `examples/` are demonstration code and are not part of this model.
