# FriendlyWebSocket, modelled in Dafny

`public/websocket.js` defines `FriendlyWebSocket`, a wrapper around the
browser `WebSocket` that reconnects on its own. It derives a `ws://` or
`wss://` address from the page location and a path. It greets the server on
every open and marks itself connected. On every close it marks itself
disconnected and schedules a new `connect()` after 2000 ms. It forwards `send`
only while connected, and it fans every incoming message out to the handlers
registered with `on("message", h)`, catching what each one throws.

`websocket.dfy` holds one module, `Websocket`:

- `Address` derives the target from a `Location` (the page's protocol and
  host) and the path. `SplitAddress` reads an address back, and
  `AddressRoundTrip` connects the two.
- The registry `_listeners.message` is a JavaScript `Set`. It is modelled as a
  duplicate-free `seq` in insertion order, and `Add` models `Set.prototype.add`.
- `Dispatch` is the `forEach` with its per-handler `try`/`catch`, written as a
  function over the registry. Lemmas state isolation, order and "exactly once".
- The class `FriendlyWebSocket` has the object's fields:
  - `path` and `url`;
  - `connected` and the registry `listeners`;
  - `socketGen`, the number of sockets opened so far, which stands for the
    identity of `this.socket`;
  - `target`, the address of the current socket, and `readyState`, the
    current socket's own state (connecting, open or closed);
  - `sent`, a log of every payload handed to a socket's `send`;
  - `pendingRetries`, the delays of scheduled but not yet fired
    `setTimeout(() => this.connect(), 2000)` calls.
- The socket's three event reactions are the methods `OnOpen`, `OnClose` and
  `OnMessage`. The timer callback is `FireRetry`. Each method names in its
  `modifies` clause exactly the fields the source assigns, plus `readyState`
  where the socket's own state changes.
- The events follow a WebSocket's lifecycle: `OnOpen` requires a connecting
  socket and `OnClose` a socket that is not yet closed. Under that lifecycle,
  the class invariant `Valid` states that on every socket the greeting
  `"Hello Server!"` is the first payload sent. It also states that nothing is
  sent on a socket while it connects, and that an open socket has been
  greeted and leaves `connected` set. Finally, it states that a closed socket
  leaves `connected` clear.
- The methods `RegisterTwice`, `ReceiveAndRemove`, `InheritedKind`,
  `Reconnect` and `ConnectWhileConnected` are small clients. They replay the lifecycle and check the
  expected state with assertions.

Details of the code that the model keeps:

- The `url` option is stored (`public/websocket.js:11`) but `connect` never
  reads it. The address is always derived from the location and `path`.
- `off("message", h)` calls `delete` on `this.messageHandlers`, which is never
  assigned. It therefore throws a TypeError and removes nothing. `Off` has no
  `modifies` clause, so it provably changes no state.
- `on` tests `type in this._listeners`, and that test also finds keys inherited
  from `Object.prototype` (`"toString"`, `"__proto__"`, ...). None of their
  values has an `add` method, so `on` with such a kind throws a TypeError.
  `On` models this with the key set `InheritedKeys`.
- The reactions act on `this.socket`, which is the current handle, whichever
  handle fired the event. So events are not tagged with a generation, and the
  greeting and every send go to socket `socketGen`.
- `connect` does not touch `connected`. When it is called directly while
  connected, `connected` stays true on a socket that is still connecting. A
  `send` then reaches the browser's `send`, which throws an InvalidStateError.
  `Send` models that throw.

## Model

| member | source | states |
|---|---|---|
| Websocket.Address | public/websocket.js:20-25 | the address is `"wss://" + host + path` when the page protocol is `"https:"`, and `"ws://" + host + path` for any other protocol |
| Websocket.AddressRoundTrip | public/websocket.js:20-25 | reading the derived address back gives "secure" exactly when the protocol is `"https:"`, followed by host and path unchanged (both directions of the scheme choice) |
| Websocket.AddressDeterminesPath | public/websocket.js:25 | on one page, different paths give different addresses (the path is used verbatim) |
| Websocket.Add | public/websocket.js:58 | `Set.prototype.add` keeps the registry free of duplicates, keeps the old entries first and in order, grows it by at most one, and its members are the old ones plus the handler |
| Websocket.AddIdempotent | public/websocket.js:56-60 | adding a handler twice leaves the registry as adding it once |
| Websocket.NoDupCount | public/websocket.js:15 | in a registry without duplicates every handler occurs exactly once |
| Websocket.Dispatch | public/websocket.js:43-53 | one message event makes exactly one call per registered handler |
| Websocket.DispatchAt | public/websocket.js:45-51 | the k-th call goes to the k-th registered handler, with `event.data`, and records whether it threw |
| Websocket.DispatchCallsEveryHandler | public/websocket.js:45-52 | whatever the handlers throw, every registered handler is called, in registry order, with the event data |
| Websocket.DispatchOnce | public/websocket.js:43-53 | each registered handler is called exactly once per message and an unregistered one never |
| Websocket.RegisterTwiceCalledOnce | public/websocket.js:43-60 | a handler registered twice is called once per message, not twice |
| Websocket.FirstOn | public/websocket.js:32 | gives nothing exactly when no payload was sent on the socket, and otherwise a payload that was sent on it |
| Websocket.FirstOnAppend | public/websocket.js:68-72 | a send changes the first payload of its own socket only, and only when nothing had been sent on that socket before |
| Websocket.FriendlyWebSocket.AppendKeepsGreetedFirst | public/websocket.js:28-72 | a send on a socket that has been greeted, or the greeting itself, keeps the greeting first on every socket |
| Websocket.FriendlyWebSocket.constructor | public/websocket.js:9-17 | `path` defaults to `"/"` and `url` is stored. Exactly one socket is opened to the address derived from the location and `path` (not `url`), and it is connecting. Then `connected` is false and the registry is empty |
| Websocket.FriendlyWebSocket.Connect | public/websocket.js:19-25 | opens a new connecting socket (generation plus one) to the derived address. It changes neither `connected`, the registry nor the send log, and nothing has been sent on the new socket |
| Websocket.FriendlyWebSocket.OnOpen | public/websocket.js:28-33 | on the open of the connecting socket it sets `connected` and appends exactly one `"Hello Server!"` to that socket's sends, which is the socket's first payload. It changes nothing else |
| Websocket.FriendlyWebSocket.OnClose | public/websocket.js:35-40 | clears `connected` and schedules exactly one reconnect with delay 2000, and changes nothing else |
| Websocket.FriendlyWebSocket.FireRetry | public/websocket.js:39 | the earliest scheduled reconnect waited 2000 ms and is consumed. It opens a new connecting socket and leaves `connected`, the registry and the sends alone |
| Websocket.FriendlyWebSocket.OnMessage | public/websocket.js:43-53 | the calls made equal `Dispatch` over the current registry with the event data, and no field changes |
| Websocket.FriendlyWebSocket.On | public/websocket.js:56-60 | `"message"` adds the handler with set semantics. A key inherited from `Object.prototype` throws a TypeError, any other kind is ignored, and only the registry may change |
| Websocket.FriendlyWebSocket.Off | public/websocket.js:62-66 | throws a TypeError exactly for `"message"`, and never changes any state, so it never removes a handler |
| Websocket.FriendlyWebSocket.Send | public/websocket.js:68-72 | while connected on an open socket, the message is appended unchanged to that socket's sends, after its greeting. While disconnected nothing changes and nothing is thrown. While `connected` is set on a socket still connecting, the browser's InvalidStateError is thrown and nothing is sent |

## Left out

- The browser `WebSocket` and the network. A socket is its generation number,
  and sending is an entry in the `sent` log. Only one browser exception is
  modelled: `send` on a socket that is still connecting. `new WebSocket(address)`
  throws a SyntaxError for an address the URL parser rejects, or for one with
  a fragment, for example a `path` containing `#` or the empty host of a
  `file:` page (`"ws:///"`). That error is not modelled: the constructor,
  `Connect` and `FireRetry` always open a socket.
- Events of a handle that has been superseded. `connect` can be called
  directly while the current handle is still live. That handle may later fire
  open, message or close events, which in the source reach the same
  reactions. The model's events are those of the current handle only.
- `setTimeout` and time. A scheduled reconnect is an entry of `pendingRetries`
  that `FireRetry` consumes. All delays are 2000, so timers fire in the order
  they were scheduled.
- The `location` global. Its protocol and host are a `Location` parameter of
  the constructor, `Connect` and `FireRetry`, because `connect` reads them
  afresh on every call.
- `console.log` and `console.warn`. They only log.
- The bodies of message handlers. A handler is an opaque `HandlerId`, and a
  caller-supplied predicate says whether it throws. Handlers are assumed not to
  call back into the wrapper during dispatch, so a Set changed during
  `forEach` is not modelled.
- Event kinds, handlers and payloads that are not strings or identifiers. A
  kind is a `string`, and `event.data` is a `string`. Blob and ArrayBuffer
  payloads and Symbol keys are not modelled.
- Interleaving on the browser event loop. Each event is one atomic method call.
- The stray `/` on `public/websocket.js:8`.
