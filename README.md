# Reconnecting websocket — a Dafny model

This project models the `Websocket` class of websocket-ts (`lib/websocket.js`):
a wrapper that keeps one logical connection alive by replacing the browser
`WebSocket` it holds every time the connection drops. The wrapper

- owns one transport handle at a time; `tryConnect` detaches the four
  handlers (open, close, error, message) from the old handle, asks it to
  close, creates a new one and attaches the handlers to it;
- buffers outgoing data in an optional buffer while the transport is not
  OPEN, drops it once the user has called `close`, and sends it directly
  otherwise;
- on a native `open`, resets the retry count and the optional backoff and
  flushes the buffer through `send`;
- on a native `close` while the user has not closed the connection, if
  there is a backoff, draws one delay from it and schedules one timer; when
  that timer fires, it counts a retry, dispatches a synthetic `retry` event
  and reconnects;
- keeps, for each of the five event kinds, an ordered list of
  `{listener, options}` entries; dispatch invokes the entries present at its
  start in order and then removes every entry dispatched with `once` set.

## Layout

- `wrappers.dfy` — `Option`, standing for JavaScript's `undefined`.
- `events.dfy` — the event kinds, listener identities, payloads and the record
  of one listener invocation.
- `listeners.dfy` — the listener lists as values: the keep-predicate of
  `removeEventListener`, the list after a removal, after a series of
  removals and after a dispatch, the calls a dispatch makes, and the lemmas
  about them. Options objects are a class, so they compare by reference as
  `!==` does.
- `websocket.dfy` — the classes `Transport` (the browser socket reduced to a
  ready flag, the set of attached handler kinds, its close requests and the
  data sent on it) and `Websocket` (the wrapper; its methods update its fields
  in place and are proved against the functions of `listeners.dfy`). Native
  events and timer firings are methods the environment calls: `OnOpen`,
  `OnClose`, `OnError`, `OnMessage`, `FireTimer`.
- `scenarios.dfy` — client methods that drive a `Websocket` through concrete
  sequences (no backoff and a close; delays 100 then 200 and two failed
  attempts; buffered sends flushed on open; send after close; a pending timer
  surviving `close`; `open` while connected; a once-listener) and assert the
  outcome using only the contracts above.

The object invariant `Websocket.Valid` states that every kind has a list, an
absent buffer holds nothing, the current handle carries exactly the four
handlers, and every handle the wrapper has superseded (the ghost set
`retired`) carries none and has had close requested. Every public method and
event handler preserves it. `TryConnect` needs only the weaker `Inv` (the
handle may be missing), and its helper `Retire` leaves `Valid` false until
`TryConnect` installs the new handle.

`Websocket.RetriesReset` states that the retry count is zero while the current
handle is OPEN. Every public method and event handler ends with it in force:
the constructor, `Close`, `Open`, `OnOpen`, `OnClose` and `FireTimer`
establish it whatever the state before, and `Send`, `AddEventListener`,
`RemoveEventListener`, `DispatchEvent`, `OnError` and `OnMessage` leave it as
they found it. It lapses in two places inside a single call. The first is a
timer firing, between the increment of the count and the replacement of the
handle (lib/websocket.js:114-119). The second is the open handling, between
the browser making the handle OPEN and the reset of the count
(lib/websocket.js:98).

Three behaviours of the code are easy to misread; the model keeps them as written:

- `removeEventListener` (lib/websocket.js:62) drops an entry when its listener
  is the given one OR its options are defined and are the very options object
  given. It therefore does not ignore `options`: it also drops entries of
  other listeners registered with the same options object. `Listeners.Keep`
  and `Listeners.Removed` state exactly this.
- `close()` and `open()` cancel no pending timer (lib/websocket.js:44-52), so
  "no retry timer is pending while user-closed" is not an invariant of the
  code. A timer that fires after `close()` still counts a retry and creates a
  new transport; `Scenarios.PendingTimerSurvivesClose` shows it.
- In the open handler, buffered items go through `send`. If the user has
  closed the connection, that drops them, and the buffer is cleared anyway.

## Model

| member | source | states |
|---|---|---|
| `Listeners.Removed` | lib/websocket.js:58-64 | no entry for the given listener, and no entry with the given defined options object, remains; every other entry remains; the list does not grow |
| `Listeners.RemovedAppend` | lib/websocket.js:59-63 | removal distributes over concatenation, so survivors keep their relative order |
| `Listeners.RemovedUnchanged` | lib/websocket.js:59-63 | removing a listener that no entry matches leaves the list unchanged |
| `Listeners.RemovedIdempotent` | lib/websocket.js:58-64 | removing the same listener and options a second time changes nothing (dispatch may remove a duplicated once-entry twice) |
| `Listeners.RemoveUndoesAdd` | lib/websocket.js:53-64 | removing with the arguments of an addition undoes that addition |
| `Listeners.AddThenRemoveRestores` | lib/websocket.js:53-64 | when no entry matched before, adding then removing restores the list exactly |
| `Listeners.OnceEntries` | lib/websocket.js:68-73 | the collected once-list holds exactly the entries whose options are defined with `once` set |
| `Listeners.NoOnceEntries` | lib/websocket.js:68-73 | a list without once-entries collects nothing |
| `Listeners.RemoveEach` | lib/websocket.js:74 | a series of removals only removes entries |
| `Listeners.RemoveEachSurvivors` | lib/websocket.js:74 | after a series of removals exactly the entries every removal keeps remain |
| `Listeners.RemoveEachAppend` | lib/websocket.js:74 | a series of removals keeps the survivors' relative order |
| `Listeners.AfterDispatchMembers` | lib/websocket.js:65-75 | after a dispatch an entry remains iff it was registered and no dispatched once-entry shares its listener or its defined options |
| `Listeners.DispatchClearsOnce` | lib/websocket.js:65-75 | every listener dispatched with `once` set has no entry left for that kind |
| `Listeners.DispatchWithoutOnceKeepsAll` | lib/websocket.js:65-75 | a dispatch over a list without once-entries leaves it unchanged |
| `Listeners.InvocationsAt` | lib/websocket.js:69-70 | a dispatch calls every entry present at its start exactly once, in registration order, with the same payload |
| `Websockets.Transport.constructor` | lib/websocket.js:84 | a new socket is not OPEN, has no handlers, no close requests and nothing sent |
| `Websockets.Transport.AddEventListener` | lib/websocket.js:85-88 | attaching a handler adds its kind to the attached set |
| `Websockets.Transport.RemoveEventListener` | lib/websocket.js:78-81 | detaching a handler removes its kind from the attached set |
| `Websockets.Transport.Send` | lib/websocket.js:42 | sending appends the data to what the socket has sent |
| `Websockets.Transport.Close` | lib/websocket.js:47 | a close request is recorded with its code and reason and the socket is no longer OPEN |
| `Websockets.Transport.Opened` | lib/websocket.js:39 | a native open leaves the socket OPEN |
| `Websockets.Transport.Closed` | lib/websocket.js:39 | a native close leaves the socket not OPEN |
| `Websockets.Websocket.constructor` | lib/websocket.js:13-27 | empty lists for all five kinds, not user-closed, zero retries, the given buffer and backoff, and one fresh transport with the four handlers attached |
| `Websockets.Websocket.UnderlyingWebsocket` | lib/websocket.js:28-34 | returns the current handle, which is not superseded and carries the four handlers |
| `Websockets.Websocket.Send` | lib/websocket.js:35-43 | after a user close nothing changes; while not OPEN exactly `[data]` is appended to the buffer (nothing without one); when OPEN the data is sent and the buffer kept; never both |
| `Websockets.Websocket.Close` | lib/websocket.js:44-48 | sets user-closed, records a close request with the given code and reason on the current handle, keeps pending timers and the buffer |
| `Websockets.Websocket.Open` | lib/websocket.js:49-52 | clears user-closed and always replaces the transport: the old handle ends detached and asked to close, the new one is fresh with exactly four handlers; timers and buffer are kept |
| `Websockets.Websocket.AddEventListener` | lib/websocket.js:53-57 | appends one entry to the end of that kind's list; duplicates kept; other kinds unchanged |
| `Websockets.Websocket.RemoveEventListener` | lib/websocket.js:58-64 | that kind's list becomes `Removed` of the old one; other kinds unchanged |
| `Websockets.Websocket.DispatchEvent` | lib/websocket.js:65-75 | the calls made are the entries present at the start, in order; that kind's list becomes `AfterDispatch` of the old one; other kinds unchanged |
| `Websockets.Websocket.RemoveOnceListeners` | lib/websocket.js:74 | removing each collected once-entry in turn leaves that kind's list as `RemoveEach` states |
| `Websockets.Websocket.TryConnect` | lib/websocket.js:76-89 | any previous handle ends with no handlers, close requested and not OPEN; a fresh handle with exactly the four handlers becomes current and joins no superseded set |
| `Websockets.Websocket.Retire` | lib/websocket.js:77-83 | the current handle ends with none of the four handlers, not OPEN, with one more close request and nothing more sent, and joins the superseded handles |
| `Websockets.Websocket.FlushBuffer` | lib/websocket.js:100-101 | each buffered item goes through `Send` in insertion order, so the transport receives the whole buffer in order when OPEN and not user-closed; the buffer ends empty |
| `Websockets.Websocket.Reconnect` | lib/websocket.js:106-120 | without a backoff nothing changes; with one, `next()` is called exactly once and exactly one timer with that delay is scheduled |
| `Websockets.Websocket.HandleEvent` | lib/websocket.js:90-105 | open: retries 0, backoff reset, buffer flushed then empty; close: reconnect iff not user-closed; error and message: no bookkeeping; the event is dispatched in every case |
| `Websockets.Websocket.OnOpen` | lib/websocket.js:97-104 | a native open makes the handle OPEN, zeroes retries, resets the backoff, sends the whole buffer in order unless user-closed, empties the buffer, then dispatches `open` |
| `Websockets.Websocket.OnClose` | lib/websocket.js:93-96 | a native close schedules exactly one timer with the next backoff delay iff not user-closed and a backoff exists, and dispatches `close` in all cases |
| `Websockets.Websocket.OnError` | lib/websocket.js:20 | a native error is only dispatched to the `error` listeners |
| `Websockets.Websocket.OnMessage` | lib/websocket.js:21 | a native message is only dispatched to the `message` listeners |
| `Websockets.Websocket.FireTimer` | lib/websocket.js:111-119 | a firing timer leaves the pending list, increments retries by exactly 1, dispatches `retry` with the new count and that timer's delay, and replaces the transport with one for the same url and protocols, whether or not the user has closed; nothing is sent on the old handle |
| `Scenarios.OncePlainAfterDispatch` | lib/websocket.js:65-75 | dispatching a once-entry followed by a plain entry of another listener leaves only the plain entry |

## Left out

- Constructing and connecting a real browser `WebSocket`, framing and the
  readyState values other than OPEN / not OPEN: a new `Transport` object
  stands for `new WebSocket(url, protocols)`.
- Real `setTimeout` timing: pending timers are a list of delays, and which one
  fires next is chosen by the caller of `FireTimer`. `CustomEvent`
  construction is replaced by the `RetryDetail` payload record.
- Listener bodies: listeners are identities, and an invocation is recorded in
  the `calls` log. Re-entrant calls from listeners into the wrapper during
  dispatch and exceptions thrown by listeners are not modelled.
- The buffer and backoff implementations: the buffer is a sequence of data;
  the backoff is a function from the number of `next()` calls since the last
  `reset()` to a delay, which covers deterministic strategies but not
  randomised jitter.
- Module and export boilerplate and the `WebsocketEvents` enum set-up
  (lib/websocket.js:1-11, 123).
- Listeners.ListenerOptions: `once` is fixed when the options object is
  created and is a boolean. The code reads `options.once` afresh at each
  dispatch and accepts any truthy value (lib/websocket.js:71); a caller that
  changes `once` on its options object after registering is not modelled.
- Websockets.Websocket.Close: the optional chaining on a missing handle
  (lib/websocket.js:47) is not a separate case, because after construction a
  handle always exists.
- Websockets.Websocket.FireTimer: the order between the `retry` dispatch and
  the transport replacement is not stated, because only listener bodies,
  which are not modelled, could observe it.
- Websockets.Websocket.FlushBuffer: iterates over the buffer contents as they
  stood when the flush began; what the real buffer does with items written
  during its own `forEach` is not modelled.
