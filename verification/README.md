# TunnelEmitter: a Dafny model

mygrok forwards HTTP requests from a public server to a client over one
shared socket. For each request, `TunnelEmitter` does two jobs:

- **Outbound:** it is the writable stream the request body is piped into. It
  announces the request with an acknowledged handshake on the shared
  `http-request-init` name. It then emits every body chunk on
  `http-request-chunk-<id>` and the end of the body on `http-request-end-<id>`.
- **Inbound:** it subscribes four closures on `http-response-headers-<id>`,
  `-chunk-<id>`, `-end-<id>` and `-error-<id>`. These replay the peer's response
  onto the local HTTP response. Cleanup ends that response and removes the four
  subscriptions.

The model has three layers.

- **Values** (`names.dfy`, `wire.dfy`, `registry.dfy`, `socket_log.dfy`,
  `exchange.dfy`):
  - Event names are a datatype. Their wire spelling is proved injective.
  - The socket's listener registry is a map from name to handlers, in
    subscription order. `AfterSetup` and `AfterCleanup` are what the emitter does
    to it.
  - The socket's call log gives, per name, what was sent.
  - A world of many exchanges holds the registry and each exchange's response.
    In it, inbound events are delivered by running the handlers registered on
    their name, in order.
- **Objects** (`transport.dfy`, `http.dfy`, `tunnel.dfy`):
  - the socket port (`Socket`) and the HTTP response (`Response`) as classes
    with mutable fields;
  - `TunnelEmitter` itself, whose methods are proved against the value layer.
- **Properties:**
  - the registry after setup and after cleanup;
  - cleanup undoes setup, and a repeated cleanup does nothing more to the
    registry;
  - no event of one exchange reaches another;
  - body chunks arrive in order: inbound, with other exchanges' events
    interleaved; outbound, for one exchange's whole request and for two
    emitters' writes interleaved on one socket;
  - teardown on end or error, and absorption of events after teardown;
  - complete request and response sequences.

The model follows the code.

- Nothing records that cleanup has already run, so each call ends the response
  again. This happens with `_destroy(error)` after an end event, for example.
  The registry side of a second cleanup changes nothing (`CleanupIsIdempotent`).
  Only a peer event arriving after teardown is harmless (`LateEventIsAbsorbed`).
- `build` subscribes the four closures before the handshake. A handshake the
  peer does not acknowledge fails `build` but leaves the subscriptions in place.
- `_destroy` with an error cleans up and never calls its callback.

## Model

| member | source | states |
|---|---|---|
| Names.Spelling | src/domain/tunnel-emitter.ts:26-67 | Every name is spelled starting `http-`. The handshake name is `http-request-init`. An exchange's name is its channel prefix followed by the id verbatim, which ends the spelling. |
| Names.SpellingInjective | src/domain/tunnel-emitter.ts:56-59 | Two names are spelled alike exactly when they are the same name. So the handshake name differs from every exchange name, and two exchange names coincide only when channel and id both do. |
| Names.InitIsNoEventName | src/domain/tunnel-emitter.ts:26 | `http-request-init` is not the spelling of any per-exchange name. |
| Names.ResponseNamesDisjoint | src/domain/tunnel-emitter.ts:56-59 | Two different exchanges share no response name. |
| Registry.Subscribe | src/domain/tunnel-emitter.ts:56-59 | Adding a listener appends it after the name's existing handlers and leaves every other name's handlers as they were. |
| Registry.Unsubscribe | src/domain/tunnel-emitter.ts:64-67 | Removing a name's listeners leaves none on it and leaves every other name as it was. |
| Registry.AfterSetup | src/domain/tunnel-emitter.ts:56-59 | The registry after setup has exactly the old names plus the exchange's four response names. |
| Registry.AfterCleanup | src/domain/tunnel-emitter.ts:64-67 | The registry after cleanup has exactly the old names minus the exchange's four response names. |
| Registry.SetupRegistersFour | src/domain/tunnel-emitter.ts:56-59 | Setup adds exactly the exchange's own closure at the end of each of its four response names. It adds no other name and changes no other name. |
| Registry.CleanupRemovesFour | src/domain/tunnel-emitter.ts:64-67 | Cleanup removes exactly the exchange's four response names. An event on any of them then reaches no handler, and every other name, including other exchanges' names, is untouched. |
| Registry.CleanupUndoesSetup | src/domain/tunnel-emitter.ts:45-68 | For an id with no listeners yet, cleanup after setup gives back the registry unchanged. |
| Registry.CleanupIsIdempotent | src/domain/tunnel-emitter.ts:62-68 | A second cleanup changes the registry no further. |
| Registry.SubscribeKeepsWellKeyed | src/domain/tunnel-emitter.ts:56-59 | Subscribing a response closure under its own exchange's name keeps every handler filed under its own channel and id. |
| Registry.SetupKeepsWellKeyed | src/domain/tunnel-emitter.ts:56-59 | Setup keeps that invariant. |
| Registry.CleanupKeepsWellKeyed | src/domain/tunnel-emitter.ts:64-67 | Cleanup keeps that invariant. |
| Registry.NoCrossDelivery | src/domain/tunnel-emitter.ts:56-59 | Under the invariant, an event named for channel c of exchange id reaches only that exchange's closure for c. |
| SocketLog.SetupOps | src/domain/tunnel-emitter.ts:56-59 | Setup makes four subscriptions. Each files a response closure of the exchange under that closure's own name, and every one of the four closures is among them. |
| SocketLog.CleanupOps | src/domain/tunnel-emitter.ts:64-67 | Cleanup makes four removals, each of one of the exchange's response names, and every one of the four names is removed. |
| SocketLog.WritesArriveInOrder | src/domain/tunnel-emitter.ts:30-33 | The emits of a run of writes (what `TunnelEmitter.SendRequest` appends) send the chunks unchanged and in order on the exchange's own chunk name, and nothing on any other name. |
| SocketLog.ListenerCallsSendNothing | src/domain/tunnel-emitter.ts:45-68 | The subscriptions and removals of setup and cleanup emit nothing. |
| SocketLog.OutboundCalls | src/domain/tunnel-emitter.ts:18-38 | Build, writes and final make six socket calls more than there are chunks: setup's four subscriptions first, then the single acknowledged emit, carrying the descriptor, then one emit per chunk, and the empty end emit last. |
| SocketLog.InterleavedWrites | src/domain/tunnel-emitter.ts:30-33 | With the writes of several emitters interleaved on one socket, each exchange's chunk name carries exactly its own chunks, unchanged and in write order. |
| SocketLog.OutboundStream | src/domain/tunnel-emitter.ts:18-38 | The calls `TunnelEmitter.SendRequest` makes, build then writes then final, send three things: the encrypted descriptor once on the handshake name, the chunks in order on the chunk name, and one empty string on the end name. They send nothing on any other name. |
| Exchange.StatusOrDefault | src/domain/tunnel-emitter.ts:48 | The status written is the peer's status when present and non-zero, else 200, and never 0. |
| Exchange.Respond | src/domain/tunnel-emitter.ts:46-55 | What each closure does to its response: the chunk closure appends its payload to the body and nothing else does; the end and error closures each end it once; only the error closure sets status 500; only the headers closure writes a head, whose status is never 0. |
| Exchange.TableAfter | src/domain/tunnel-emitter.ts:50-55 | The end and error closures remove exactly the exchange's four response names; the headers and chunk closures leave the registry's names as they were. |
| Exchange.Fire | src/domain/tunnel-emitter.ts:46-55 | A closure changes only its own exchange's response. It leaves the registry either as it was or cleaned up for its own exchange. |
| Exchange.FireAll | src/domain/tunnel-emitter.ts:56-59 | Running the handlers of one name in turn adds no listener name and adds or drops no response. |
| Exchange.Dispatch | src/domain/tunnel-emitter.ts:56-59 | An event nobody listens to changes nothing, and delivery never adds a listener name or a response. |
| Exchange.Replay | src/domain/tunnel-emitter.ts:56-59 | Delivering a run of events never adds a listener name or a response. |
| Exchange.FireAllOnlyRemoves | src/domain/tunnel-emitter.ts:50-55 | Running closures adds no listener: every name keeps exactly its handlers or loses them all. |
| Exchange.DispatchOnlyRemoves | src/domain/tunnel-emitter.ts:50-59 | Delivering an event adds no listener: every name keeps exactly its handlers or loses them all. |
| Exchange.ReplayOnlyRemoves | src/domain/tunnel-emitter.ts:50-59 | Delivering a run of events adds no listener: every name keeps exactly its handlers or loses them all. |
| Exchange.DispatchLeavesOthers | src/domain/tunnel-emitter.ts:46-59 | An event not named for exchange b changes neither b's response nor the listeners on any of b's names. |
| Exchange.DispatchStaysWithinExchange | src/domain/tunnel-emitter.ts:56-59 | An event of exchange a changes neither another exchange's response nor the listeners on any of its names. |
| Exchange.FireAllKeepsWellKeyed | src/domain/tunnel-emitter.ts:50-55 | Running closures, including cleanups, keeps every handler filed under its own channel and id. |
| Exchange.DispatchKeepsWellKeyed | src/domain/tunnel-emitter.ts:50-59 | Delivering any event keeps that invariant, so no-cross-delivery holds for every later event too. |
| Exchange.ReplayLeavesOthers | src/domain/tunnel-emitter.ts:46-59 | Over a whole run of events none of which is named for exchange b, however they interleave, b's response and b's listeners stay as they were and the registry stays well keyed. |
| Exchange.DispatchKeepsTracking | src/domain/tunnel-emitter.ts:54 | A non-terminal event keeps an open exchange open. It appends to its body exactly the payload of a chunk event of its own, and nothing otherwise. |
| Exchange.ReplayCollectsChunks | src/domain/tunnel-emitter.ts:54 | Until a terminal event, an open exchange's body grows by exactly its own chunk payloads in arrival order, whatever else is interleaved. |
| Exchange.OpenedIsTracking | src/domain/tunnel-emitter.ts:45-60 | Building an exchange whose names are unused opens it: its chunk closure is alone on its chunk name and the registry stays well keyed. |
| Exchange.TerminalTearsDown | src/domain/tunnel-emitter.ts:50-55 | An end or error event ends the response once and removes exactly the exchange's four names. The error event first sets status 500. |
| Exchange.LateEventIsAbsorbed | src/domain/tunnel-emitter.ts:62-68 | After that teardown, any further event on the exchange's response names changes nothing. |
| Exchange.HeadersThenEnd | src/domain/tunnel-emitter.ts:46-55 | Headers with no status (or 0 or 200) and no header fields, then end: the response is status 200, head (200, []), no body and one end, and the registry is back to what it was. |
| Exchange.ErrorBeforeHeaders | src/domain/tunnel-emitter.ts:50-53 | An error first: the response is status 500, no head, no body and one end, and the registry is back to what it was. |
| Exchange.InterleavedChunks | src/domain/tunnel-emitter.ts:54 | Two open exchanges whose chunks arrive as a1, b1, a2, b2 receive [a1, a2] and [b1, b2]. |
| Transport.Socket.AddListener | src/domain/tunnel-emitter.ts:56-59 | addListenner is `Subscribe` on the registry, and the call is logged. |
| Transport.Socket.RemoveListeners | src/domain/tunnel-emitter.ts:64-67 | removeListenners is `Unsubscribe` on the registry, and the call is logged. |
| Transport.Socket.Emit | src/domain/tunnel-emitter.ts:31 | emit logs the name and payload and leaves the registry alone. |
| Transport.Socket.EmitWithAck | src/domain/tunnel-emitter.ts:26 | emitWithAck logs the name and payload and reports whether the peer acknowledged. |
| Http.Response.constructor | src/domain/tunnel-emitter.ts:13 | A response starts at status 200 with nothing written. |
| Http.Response.WriteHead | src/domain/tunnel-emitter.ts:48 | writeHead records the status and headers and changes nothing else. |
| Http.Response.SetStatus | src/domain/tunnel-emitter.ts:51 | Assigning statusCode changes only the status. |
| Http.Response.Write | src/domain/tunnel-emitter.ts:54 | write appends the chunk to the body. |
| Http.Response.End | src/domain/tunnel-emitter.ts:63 | end is counted, and nothing else changes. |
| Tunnel.TunnelEmitter.constructor | src/domain/tunnel-emitter.ts:9-16 | The emitter keeps the crypto adapter, request descriptor, socket and response it is given. |
| Tunnel.TunnelEmitter.Build | src/domain/tunnel-emitter.ts:18-28 | Subscriptions come first (`AfterSetup`, logged in order), then the encrypted descriptor is sent with an ack. build succeeds exactly when acknowledged, with a fresh emitter over the given parts. On failure the subscriptions stay. |
| Tunnel.TunnelEmitter.SendRequest | src/domain/tunnel-emitter.ts:18-38 | Build with the handshake acknowledged, `_write` per chunk, then `_final`. Together they append exactly `OutboundCalls` to the socket's log and give one callback per write plus one. The socket is sent the encrypted descriptor on the handshake name, the chunks unchanged and in order on the chunk name, one empty string on the end name, and nothing else. |
| Tunnel.TunnelEmitter.WriteInterleaved | src/domain/tunnel-emitter.ts:30-33 | Two emitters sharing a socket, `_write` called in any interleaving: the log gains exactly those emits in call order, one callback per write, the listeners are untouched, and each exchange's chunk name carries exactly its own chunks in order. |
| Tunnel.TunnelEmitter.Write | src/domain/tunnel-emitter.ts:30-33 | The chunk is emitted unchanged on the request chunk name, then one callback follows. |
| Tunnel.TunnelEmitter.Final | src/domain/tunnel-emitter.ts:35-38 | An empty string is emitted on the request end name, then one callback follows. |
| Tunnel.TunnelEmitter.Destroy | src/domain/tunnel-emitter.ts:40-43 | With an error: cleanup runs and there is no callback. Without one: one callback and no other effect. |
| Tunnel.TunnelEmitter.SetupResponseListeners | src/domain/tunnel-emitter.ts:45-60 | The registry becomes `AfterSetup` of the old one, and the log gains the four subscriptions headers, chunk, end and error in that order. |
| Tunnel.TunnelEmitter.OnResponseHeaders | src/domain/tunnel-emitter.ts:46-49 | The response gains a head with the decrypted headers and the status `StatusOrDefault` gives, which is never 0. Nothing else changes. |
| Tunnel.TunnelEmitter.OnResponseError | src/domain/tunnel-emitter.ts:50-53 | Status 500 is set, then cleanup runs: one more end, and the four names are removed in cleanup order. |
| Tunnel.TunnelEmitter.OnResponseChunk | src/domain/tunnel-emitter.ts:54 | The chunk is appended to the response body as it came. |
| Tunnel.TunnelEmitter.OnResponseEnd | src/domain/tunnel-emitter.ts:55 | Cleanup runs. |
| Tunnel.TunnelEmitter.Handle | src/domain/tunnel-emitter.ts:46-59 | Running the closure subscribed for channel c changes the response and the registry exactly as `Exchange.Fire` says a handler of this exchange does. The log gains cleanup's four removals for end and error, and nothing for headers and chunk. |
| Tunnel.TunnelEmitter.Cleanup | src/domain/tunnel-emitter.ts:62-68 | The response is ended once more on every call (there is no guard). The registry becomes `Registry.AfterCleanup` of the old one, and the log gains the removals of headers, error, chunk and end in that order. |

## Left out

- The socket implementation and the `ISocket` port's source are not part of
  this model. The emitter sees only the calls it makes: `Socket` keeps a
  registry and a log. Delivery of inbound events is modelled on values, by
  `Exchange.Dispatch` and `Exchange.Replay`: the handlers on the event's name
  run in subscription order, one event at a time. Network loss and reordering
  are not modelled.
- The crypto adapter's source is not part of this model. `encryptOb` and
  `decryptOb` are two arbitrary total functions, and no round trip is assumed.
  A decryption that throws is not modelled.
- The request and response descriptor types' sources are not part of this
  model. Their fields appear as the datatypes `ReqPayload` and `ResPayload`.
- Node's `Writable` machinery is not modelled: buffering, backpressure, the
  `encoding` argument, and the order in which the stream calls `_write`,
  `_final` and `_destroy`. Callbacks are counted in an out-parameter.
- `async`/`await`: the handshake's acknowledgement or rejection is the
  parameter `acked`. A rejected promise is the `Failure` result of `Build`.
  Timeouts are not modelled.
- The falsy statuses that `|| 200` replaces are modelled as an absent status or
  0. `null` and `NaN` have no counterpart in the `Option<int>` status.
- `http.ServerResponse` internals are not modelled: headers already sent,
  write-after-end errors, and whether a second `end()` is a no-op. The model
  counts `end` calls.
- `Http.Response.WriteHead`: records its status and headers in `head` only.
  Node's `writeHead` also assigns `statusCode`, but in the model `statusCode`
  records direct assignments only. After headers with status 404, for
  example, `head` says 404 and `statusCode` stays 200. `writeHead` also throws
  for a status outside 100..999, and the model does not capture that.
- Exchange ids are not checked to be unique. The lemmas that open an exchange
  require its four response names to be unused.
