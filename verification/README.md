# promise-ws: a Dafny model of its call/reply correlation and its servers

promise-ws is a request/response layer over WebSockets. An endpoint
(`Emitter`, in src/Emitter.js and its earlier variant src/Incoming.js)
turns a call into a frame `{_id, type, args}`. It gives each call the next
id and keeps a pending entry until a frame `{_id, responseData}` answers it.
For inbound calls it runs every handler registered for the call type, and
the first handler to finish sends the single reply. A server (src/Server.js
and its older variant src/Server-copy.js) accepts connections. It keeps a
canonical registry of reply handlers, which it pushes to every open
connection and seeds into each new one, and it runs a heartbeat that
terminates connections that stop answering pings.

The project models these four classes imperatively: a Dafny `class` per
source class, with its maps, sets, counters and logs as fields. The
transport and everything asynchronous become explicit state and explicit
steps:

- A received frame arrives already parsed, as `Wire.Inbound`; `Malformed`
  stands for one that does not parse.
- What an endpoint sends goes to an `outbox`; a handler finishing is the
  step `Finish`.
- The server records what it hands to connections' endpoints as a log of
  `Acceptor.Push`es. It records pings and terminations as logs too, and a
  heartbeat tick is the step `Tick`.
- Each server keeps a ghost set of the sockets whose flag went up since
  the last tick. With it, `Tick` states the two-tick rule outright: a
  socket that neither connected nor answered a ping since the previous
  tick is terminated.

Modules:

- `Wire`: frames, values, handler identities, and the id and reply
  disciplines of an endpoint, with the lemmas that keep them.
- `Registry`: a Node event emitter's listener lists, with duplicates.
  `removeListener` drops the last occurrence and drops the name once its
  list is empty.
- `Endpoint`: src/Emitter.js. `Incoming`: src/Incoming.js.
- `Acceptor`: what both servers share:
  - the sockets `_forEach` visits;
  - the heartbeat sweep;
  - `Promise.all` over a request's results;
  - how `create` settles.
- `Broker`: src/Server.js. `LegacyBroker`: src/Server-copy.js.

Some behaviour one might expect of a request/reply layer is absent from
the code, and the model follows the code:

- An inbound call with no handler gets no reply at all. No bare
  acknowledgement is sent (src/Emitter.js:18-23).
- There are no once-handlers, error handlers, endpoint handler counts or
  reconnection.
- A heartbeat tick terminates every socket whose flag is down and pings
  every socket whose flag is up.

## Model

| member | source | states |
|---|---|---|
| Wire.NextCallKeepsIds | src/Emitter.js:80-87 | sending the call with id `lastId + 1` keeps every call id in 1..lastId and strictly increasing, and the new id is larger than every id sent before |
| Wire.ReplyKeepsIds | src/Emitter.js:19-22 | a reply frame leaves the call-id discipline intact |
| Wire.AcceptKeepsReplies | src/Emitter.js:18-23 | recording a pending reply for an accepted call keeps "replies sent plus replies pending never exceed calls accepted", per id |
| Wire.SettleKeepsReplies | src/Emitter.js:44-47 | sending (or dropping unsent) the pending reply of an id trades the pending entry for at most one reply frame, keeping the bound |
| Wire.CallKeepsReplies | src/Emitter.js:87 | a call frame does not disturb the reply bound |
| Wire.AtMostOneReply | src/Emitter.js:40-49 | for an id the peer used once, at most one reply frame is ever sent, and none while its reply is still pending |
| Wire.FirstArgs | src/Emitter.js:59-66 | the value a `waitFor` promise resolves with: the arguments of the first invocation of its listener, and none while it was never invoked |
| Wire.FirstArgsStable | src/Emitter.js:60-63 | once the waiter was invoked, later invocations do not change what its promise resolved with |
| Registry.RemoveLast | src/Emitter.js:72 | removes exactly one occurrence of the listener when present (length drops by one, multiset loses one copy) and nothing otherwise |
| Registry.RemoveLastTakesLast | src/Emitter.js:72 | the occurrence removed is the last one, and the remaining listeners keep their order |
| Registry.Attach | src/Server-copy.js:114-115 | `addListener` appends the listener to its name's list, leaves other names alone, and keeps "no empty list" |
| Registry.Detach | src/Server-copy.js:167-169 | `removeListener` removes the last occurrence from the name's list, leaves other names alone, keeps "no empty list", and changes nothing for an absent listener |
| Registry.Count | src/Server-copy.js:141-143 | `listenerCount` is zero exactly when the name holds no listener |
| Registry.AttachCounts | src/Server-copy.js:114-120 | each registration, duplicates included, raises the count of its name by one and no other |
| Registry.DetachCounts | src/Server-copy.js:167-169 | removing a registered listener lowers the count by one, any other removal by zero; other names keep their counts |
| Registry.DetachUndoesAttach | src/Server-copy.js:114-115 | removing the listener just added gives back the table before it |
| Endpoint.Emitter.constructor | src/Emitter.js:5-11 | a new endpoint has id counter 0, no pending entry, no handler, and sends nothing |
| Endpoint.Emitter.Receive | src/Emitter.js:13-36 | a malformed frame or one with a falsy `_id` changes nothing; a call frame records a pending reply and starts one invocation per registered handler (none when `args` cannot be spread); a response frame settles and removes exactly the pending call with its id, and an unknown id is ignored; the invariants are kept |
| Endpoint.Emitter.Finish | src/Emitter.js:40-49 | the first handler of a call to finish with a value removes the pending reply and sends `{_id, responseData}` through the socket it was received on (nothing goes out once that socket is closed); a `waitFor` listener replies `undefined`; a handler whose promise rejects, and every later handler, sends nothing and leaves the pending table alone |
| Endpoint.Emitter.On | src/Emitter.js:39-53 | wraps the listener, remembers the wrapper as the listener's latest and appends it to the type's handlers; a falsy listener makes the WeakMap `set` throw before anything is registered |
| Endpoint.Emitter.AddListener | src/Emitter.js:55-57 | the same effect as `on` |
| Endpoint.Emitter.WaitFor | src/Emitter.js:59-66 | registers a listener never seen before under the type |
| Endpoint.Emitter.RemoveListener | src/Emitter.js:68-75 | a listener the WeakMap does not know changes nothing; otherwise its latest wrapper is forgotten and its last occurrence taken off the type's handlers |
| Endpoint.Emitter.Emit | src/Emitter.js:77-93 | takes id `lastId + 1`, which no pending call, settled call or earlier call frame uses; records the pending call; sends exactly one `{_id, type, args}`; when `send` throws, the promise is rejected and the pending entry stays; nothing else changes |
| Endpoint.Emitter.Close | src/Client.js:30-33 | the first `close` terminates and drops the transport, so later sends throw; a second `close` throws (`_ws` is null) and changes nothing |
| Incoming.Emitter.constructor | src/Incoming.js:5-10 | a new endpoint has id counter 0, no pending entry and no handler |
| Incoming.Emitter.Receive | src/Incoming.js:12-35 | the same dispatch as src/Emitter.js: malformed or falsy-id frames change nothing, call frames record a pending reply and start the handlers, response frames settle exactly the matching pending call |
| Incoming.Emitter.Finish | src/Incoming.js:39-48 | at most one reply per inbound call, from the first truthy handler to finish; a wrapper around a falsy handler leaves the outbox and the pending table unchanged |
| Incoming.Emitter.On | src/Incoming.js:38-49 | always appends a new wrapper, even around a falsy handler; nothing ever removes it |
| Incoming.Emitter.Emit | src/Incoming.js:51-67 | ids start at 1 and strictly increase; one pending entry and one frame per call; a `send` that throws rejects the call and keeps the entry |
| Incoming.Emitter.SocketClosed | src/Incoming.js:61 | once the socket has closed, `send` throws |
| Acceptor.OpenTracked | src/Server.js:100-107 | `_forEach` visits exactly the sockets of `wss.clients` that are OPEN and have a tracked client |
| Acceptor.Visit | src/Server.js:100-107 | the walk over `wss.clients` hands the operation to exactly the OPEN sockets with a tracked client, once each, in order |
| Acceptor.OpenTrackedDistinct | src/Server-copy.js:145-157 | `_forEach` visits each such socket exactly once |
| Acceptor.Without | src/Server.js:35-37 | a closed socket leaves the tracked list and nothing else does; no socket is listed twice |
| Acceptor.Silent | src/Server.js:51 | the sockets a tick terminates are exactly those whose flag is down |
| Acceptor.Responsive | src/Server.js:53-54 | the sockets a tick pings are exactly those whose flag is up |
| Acceptor.TickSplits | src/Server.js:50-55 | every socket is either terminated or pinged by a tick, never both |
| Acceptor.Sweep | src/Server.js:50-55 | the tick loop terminates exactly the silent sockets and pings exactly the responsive ones, in order, leaves every flag down and the terminated sockets CLOSING |
| Acceptor.All | src/Server.js:109-115 | `Promise.all` over the per-client results fails exactly when some call was rejected, fulfils exactly when every call resolved, and then holds one value per visited client in order |
| Acceptor.AllOverTargets | src/Server.js:109-115 | over the clients a request reached: fails exactly when one of their calls was rejected, fulfils exactly when all resolved, with their values in the clients' order; no client gives an immediate empty result |
| Acceptor.Created | src/Server-copy.js:101-111 | `create` settles with the first event that calls its callback: the next tick (immediate start) or `listening` (otherwise) resolves it, `error` rejects it, and it stays pending until one happens |
| Acceptor.CreatedSettlesOnce | src/Server.js:7-14 | once settled, later `listening` or `error` events do not change the outcome |
| Acceptor.WrittenMembersMissing | src/Server.js:44 | as written, every server call site names a member the client object does not have |
| Acceptor.IntendedMembersPresent | src/Server-copy.js:127 | the endpoint operations the call sites evidently mean all exist |
| Broker.Register | src/Server.js:62-70 | `onReply` adds the handler to its type's set, created when missing; other types are untouched; no set is left empty |
| Broker.Unregister | src/Server.js:117-122 | `removeReply` takes the handler out of its type's set and drops the type once its set is empty; an unknown type or handler leaves the registry unchanged |
| Broker.Count | src/Server.js:86-89 | `replyCount` is zero exactly when the type is absent |
| Broker.RegisterIdempotent | src/Server.js:62-70 | registering a handler twice equals registering it once |
| Broker.RegisterCount | src/Server.js:62-70 | `replyCount` grows by one for a new handler and stays for a duplicate |
| Broker.UnregisterUndoesRegister | src/Server.js:117-122 | removing a handler just added gives back the registry before it |
| Broker.SeedPushes | src/Server.js:42-46 | the seeding loops hand the new client exactly the registered (type, handler) pairs |
| Broker.Server.constructor | src/Server.js:16-25 | no socket, no client, no handler, the heartbeat interval set |
| Broker.Server.Connect | src/Server.js:31-47 | a new socket is flagged alive, OPEN, tracked with a client, and seeded with every registered pair; earlier pushes stay |
| Broker.Server.ConnectAsWritten | src/Server.js:31-40 | as written, the socket is flagged alive and OPEN but gets no client, so `_forEach` never visits it and nothing is seeded |
| Broker.Server.Disconnect | src/Server.js:35-37 | a closed socket is untracked and loses its client |
| Broker.Server.Pong | src/Server.js:27-33 | a pong raises the flag of its socket and of no other |
| Broker.Server.Tick | src/Server.js:49-56 | one tick terminates the flag-down sockets, pings the others and lowers every flag; every socket that neither connected nor answered a ping since the previous tick is among those terminated; it only ticks while the interval is set |
| Broker.Server.ForEach | src/Server.js:100-107 | the operation goes to exactly the open tracked clients, once each, in order |
| Broker.Server.OnReply | src/Server.js:62-76 | registers the handler and pushes it to every open tracked client, even when already registered |
| Broker.Server.Reply | src/Server.js:78-80 | the same effect as `onReply` |
| Broker.Server.AddReply | src/Server.js:82-84 | the same effect as `onReply` |
| Broker.Server.ReplyCount | src/Server.js:86-89 | zero exactly when no handler is registered for the type |
| Broker.Server.WaitFor | src/Server.js:91-98 | registers a handler no type held before and pushes it to every open tracked client |
| Broker.Server.Request | src/Server.js:109-115 | one call per open tracked client, no client twice; the returned promise is `Acceptor.All` over their settlements in that order, so it fails exactly when one call was rejected and fulfils exactly when all resolved |
| Broker.Server.RemoveReply | src/Server.js:117-128 | unregisters the handler and pushes the removal to every open tracked client |
| Broker.Server.Close | src/Server.js:134-137 | clears the heartbeat interval, so no tick follows, and closes the acceptor |
| LegacyBroker.New | src/Server-copy.js:21-37 | a non-object `options` throws the missing-option error and `null` throws on destructuring, both before any server exists; any other object builds an empty server with the heartbeat set, whose callback waits for the next tick exactly when `noServer` is set or the given server is listening |
| LegacyBroker.CreateOutcome | src/Server-copy.js:8-19 | `create` rejects when the options checks throw; with `noServer` it resolves exactly when the next tick comes before any acceptor error |
| LegacyBroker.SeedPushes | src/Server-copy.js:62-74 | the seeding loops hand the new client exactly the registered (event name, listener) pairs |
| LegacyBroker.Server.constructor | src/Server-copy.js:21-37 | no socket, client, handler or close handler; the heartbeat interval set |
| LegacyBroker.Server.Connect | src/Server-copy.js:44-79 | a new socket gets a client, is flagged alive and OPEN, and is seeded with every registered listener |
| LegacyBroker.Server.ConnectAsWritten | src/Server-copy.js:44-46 | as written, the socket stays OPEN with no client and its flag down; it hears no pong, so the next tick terminates it |
| LegacyBroker.Server.Disconnect | src/Server-copy.js:51-53 | a closed socket is untracked and loses its client |
| LegacyBroker.Server.Pong | src/Server-copy.js:40-49 | a pong raises the flag of its socket only, and only when that socket has a client (and so the `pong` listener) |
| LegacyBroker.Server.Message | src/Server-copy.js:55-60 | on a socket with a client, the close signal emits `requestClose` with the client and calls every close handler with it, in order; any other message, or a socket without the listener, changes nothing here |
| LegacyBroker.Server.OnReplyClose | src/Server-copy.js:122-131 | appends one close handler |
| LegacyBroker.Server.CloseDecided | src/Server-copy.js:123-129 | a truthy answer closes the server; a falsy one sends `'REJECT TO CLOSE'` to the asking client only, and only while its socket is open |
| LegacyBroker.Server.Tick | src/Server-copy.js:82-91 | the heartbeat tick, as in src/Server.js; a socket without a client is terminated at every tick |
| LegacyBroker.Server.ForEach | src/Server-copy.js:145-165 | the operation goes to exactly the open tracked clients, once each, in order |
| LegacyBroker.Server.OnReply | src/Server-copy.js:114-120 | appends one registration, duplicates included, and pushes it to every open tracked client |
| LegacyBroker.Server.Reply | src/Server-copy.js:133-135 | the same effect as `onReply` |
| LegacyBroker.Server.AddReply | src/Server-copy.js:137-139 | the same effect as `onReply` |
| LegacyBroker.Server.ReplyCount | src/Server-copy.js:141-143 | zero exactly when the event name has no listener |
| LegacyBroker.Server.RemoveReply | src/Server-copy.js:167-174 | removes the last registration of the listener and pushes the removal to every open tracked client |
| LegacyBroker.Server.Request | src/Server-copy.js:176-182 | one call per open tracked client, no client twice; the returned promise is `Acceptor.All` over their settlements in that order |
| LegacyBroker.Server.Close | src/Server-copy.js:188-191 | clears the heartbeat interval and closes the acceptor |

## Left out

- JSON encoding and decoding: frames are modelled already parsed. A frame
  that does not parse, or parses to something that cannot be destructured,
  is `Malformed`. Ids are integers (0 stands for any falsy `_id`). Ids of
  other JSON types are not modelled.
- Endpoint.Emitter.Emit: ids are unbounded integers. `++this._lastId` works
  on a JavaScript number, which stops increasing past 2^53, so ids would
  repeat there. That regime is not modelled.
- Incoming.Emitter.Emit: the same unbounded ids as `Endpoint.Emitter.Emit`.
- Promise and async timing: a handler finishing is an explicit step, and a
  settled promise is a recorded outcome.
- Broker.Server.Request, LegacyBroker.Server.Request: the clients'
  settlements are a parameter (`settled`). They come from the connections'
  endpoints, which the servers' models do not run. `Promise.all` rejecting
  at the first rejection in time is stated only as "fails when some call
  was rejected".
- The `ws` library:
  - The transport is a flag: `send` either works or throws.
  - A terminated socket turns CLOSING; any later transition is not modelled.
  - Handshakes, ping payloads, and what `wss.close` does to open sockets are
    not modelled. `Close` only records that the acceptor is closing.
  - `setInterval` timing is not modelled; a tick is the explicit step `Tick`.
  - The `listening`/`error` events and `process.nextTick` are the
    `StartEvent` sequence.
- LegacyBroker.CreateOutcome: only the two options checks of the
  constructor are modelled as throwing. `new WebSocket.Server` rejecting
  its options by its own validation is not.
- The endpoints behind a server: the servers' models record the operations
  they hand each connection's client and do not run them.
- Broker.Server.ConnectAsWritten, LegacyBroker.Server.ConnectAsWritten:
  they model the state the `connection` listener leaves when `new
  Client(ws)` throws. What then becomes of the thrown error, which leaves
  the listener and reaches the acceptor's event emission, is not modelled.
- Node event-emitter special cases are not modelled: the `newListener` and
  `removeListener` events, and an `error` event emitted with no listener.
- Server-copy's forwarding of `connection`, `error` and `headers`, its
  `error` no-op listener, the `onConnection` and `wss` accessors,
  `console.error` logging, and src/index.js, src/utils.js and Client's
  connect/open/error wiring are not modelled. They are plumbing or logging.
  `CLOSE_SIGNAL` is the constant `LegacyBroker.CloseSignal`.
- Broker.Server.Connect and Broker.SeedPushes: seeding is stated as the set
  of pushed (type, handler) pairs. The order in which Map and Set iteration
  visits them is not stated.
- LegacyBroker.Server.Connect and LegacyBroker.SeedPushes: seeding is
  stated as the set of pushed (event name, listener) pairs. The order of
  event names and how many times a duplicated listener is pushed are not
  stated.
- Acceptor.OpenTracked: its contract states which sockets are visited. The
  order (that of `wss.clients`) is carried by its definition and by
  `Acceptor.Visit`, which is proved equal to it.
- Wire.FirstArgs: the value a `waitFor` promise resolves with is defined
  over an endpoint's invocation log. It is not a field of the endpoint.
- Endpoint.Emitter.Receive, Incoming.Emitter.Receive: the `error` event
  name is treated like any other type. Emitting it with no handler throws
  inside the `try`. The observable effect is the same: a pending reply is
  recorded and no handler runs.

## Findings

| source | as written | input that shows it | evidently intended | confidence | as-written member | corrected member |
|---|---|---|---|---|---|---|
| src/Server.js:39 | the `connection` listener calls `new Client(ws)` without a callback, and src/Client.js:26 passes that `undefined` to `ws.on('open', …)`, which Node's event emitter refuses with a TypeError. The socket has already been flagged and given its `pong` and `close` listeners, but it never gets a client, so no handler is seeded into it and no later `onReply`, `removeReply` or `request` reaches it | any accepted connection | the client is built and tracked, and the registered handlers are seeded into it | high (not executed) | Broker.Server.ConnectAsWritten | Broker.Server.Connect |
| src/Server-copy.js:45 | the same `new Client(ws)` throws first thing in the listener, before the flag and the `pong`, `close` and `message` listeners are installed. The socket stays open with a falsy `isAlive`, hears no pong and ignores the close signal, so the next heartbeat tick terminates it | any accepted connection, followed by one tick | the client is built and tracked, the socket flagged alive and its listeners installed | high (not executed) | LegacyBroker.Server.ConnectAsWritten | LegacyBroker.Server.Connect |
| src/Server.js:44 | the servers call `addReply`, `onReply`, `removeReply` and `request` on a connection's client (src/Server.js:44, 73, 112, 125; src/Server-copy.js:72, 117, 171, 179), and `ws()` (src/Server-copy.js:127). The client object (src/Client.js over src/Emitter.js) defines none of them, so each call throws a TypeError | once clients are built (the rows above): any connection while a handler is registered; any `onReply`, `removeReply` or `request` with an open client; a close handler that answers falsy | the endpoint operations `addListener`, `on`, `removeListener` and `emit`, and the client's `_ws` socket | high (not executed) | Acceptor.WrittenMembersMissing | Acceptor.IntendedMembersPresent |
