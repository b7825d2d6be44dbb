# Terminal session bridge: a Dafny model

The server in `server/con.js` hands every socket.io client its own shell,
which runs on a pseudo-terminal (node-pty). This project models the
bookkeeping of that session bridge. The model covers:

- the process-wide `connections` Map from socket id to pty;
- the variables of each `io.on('connection')` closure: `ptyProcess` and
  `reconnectAttempts`, plus the socket itself;
- the handlers that update them on `input`, `resize`, `disconnect`,
  `error` and `reconnect`, on the pty's `data` and `exit` events, and on
  the `SIGTERM` sweep.

The pty and the socket are opaque records:

- a pty records its spawn options, its `(cols, rows)` size, whether the
  shell still runs, the input written to it, and the number of `kill()`
  calls it has received;
- a socket records whether it is connected, the `output` messages emitted
  on it, and the number of `connect()` requests.

Whether a library call succeeds or throws is a boolean parameter of the
event: spawn, write, resize, kill and emit. The two remaining calls,
`socket.connect()` and `socket.disconnect(true)`, are assumed to return
normally.

## Layout

- `wrappers.dfy` (`Wrappers`): `Option`.
- `pty.dfy` (`PtyProcess`): the pty record, the spawn options built by
  `initializePty`, and the effect of write, resize, kill and exit on a pty.
- `socket.dfy` (`SocketChannel`): the socket record.
- `sessions.dfy` (`Sessions`): the whole server state as a value
  (`ServerState`), its invariant `Valid`, and one function per event
  handler. Each function's contract says what the handler does to the
  registry, to the socket's own session, and to everything else.
- `server.dfy` (`Server`): class `Bridge`. Its two fields, `sessions` and
  `connections`, are updated in place, with one method per handler. Every
  method keeps `Valid()` and is proved to leave exactly the state that the
  matching `Sessions` function gives. The `SIGTERM` sweep is a loop over the
  registry's keys.
- `properties.dfy` (`BridgeProperties`): lemmas about series of events:
  - starting from a valid state, the invariant holds after any series of
    events, because every single event keeps it (`BridgeProperties.Apply`);
  - an event on one socket leaves every other socket alone;
  - input and output keep their order;
  - the error counter saturates at its limit;
  - the last resize wins;
  - the sweep kills every registered shell.
- `scenarios.dfy` (`BridgeScenarios`): single sessions followed from
  start-up through the code as written.

JavaScript shares objects by reference. Here, a registry entry and the
closure's `ptyProcess` are one object. The model keeps the pty in both
places, and every change to a pty goes through `Sessions.WithPty` /
`Server.Bridge.SetPty`, which write both. `Valid` states that the two
always agree.

Within one closure, `ptyProcess` is assigned only by a successful spawn and
is never reset to null. So "the socket's handlers are installed" is the same
as "`ptyProcess` is Some" (`Sessions.Listening`). The one exception is the
`disconnect` event: the model applies the transport's own effect, the
socket becoming disconnected, whether or not a handler exists.

### Teardown as written

The source's own comments call the Map a record of "active connections"
(server/con.js:46) and the `SIGTERM` handler a "cleanup on server
shutdown" (server/con.js:175). What the handlers actually do, and what the
model states, is this; a lemma shows each point:

- The pty's `exit` handler (server/con.js:81-90) only emits the notice.
  The registry entry stays in place, holding an exited pty
  (`BridgeScenarios.ExitKeepsDeadEntry`).
- The `SIGTERM` sweep (server/con.js:178-184) calls `kill()` on every
  registered pty but never deletes an entry, so the registry keeps all its
  keys (`BridgeProperties.SweepKillsAll`).
- The `disconnect` handler (server/con.js:131-141) deletes the entry even
  when `kill()` throws. The shell then keeps running with no registry entry
  pointing to it (`BridgeScenarios.KillFailureOrphansShell`).

## Model

| member | source | states |
|---|---|---|
| PtyProcess.ShellFor | server/con.js:58 | the shell is powershell.exe exactly on win32, bash on every other platform |
| PtyProcess.SpawnOptionsFor | server/con.js:59-69 | spawn options: no arguments, terminal name xterm-color, 80 cols x 30 rows, cwd is HOME when set, environment copied with TERM=xterm-256color and COLORTERM=truecolor overriding and every other variable kept |
| Sessions.Initial | server/con.js:47 | the server starts with an empty registry and no sockets, and this state is valid |
| Sessions.WithPty | server/con.js:92 | a change to a socket's pty is seen both through its closure and through its registry entry; no other session or entry changes, and no key is added or removed |
| Sessions.Connect | server/con.js:49-104 | with a successful spawn: exactly one new entry under the socket id, holding a running 80x30 shell with the spawn options and empty input; the socket is the freshly accepted one (connected, nothing emitted, no connect requests) and its counter is 0. With a failed spawn: the registry is unchanged, there is no pty and the socket is closed. Existing sessions and entries are untouched in both cases |
| Sessions.Input | server/con.js:111-119 | when a pty exists and the write succeeds, the data is appended to that pty's input and nothing else changes; otherwise the state is unchanged (dropped and absorbed); other sockets are untouched |
| Sessions.Resize | server/con.js:121-129 | when a pty exists and the resize succeeds, its size becomes exactly (cols, rows) and nothing else changes; a failing resize or a missing pty leaves the state unchanged; no other registry entry changes |
| Sessions.Disconnect | server/con.js:131-141 | the socket is closed and otherwise unchanged; kill() is called once on its pty, which stops only if kill succeeded; exactly that socket's key is removed from the registry even when kill throws; all other entries and sessions are unchanged |
| Sessions.SocketError | server/con.js:143-153 | below 5 the counter goes up by one and a connect() is requested; at the limit the socket is forced closed and the counter stays; the registry and the pty are unchanged |
| Sessions.Reconnect | server/con.js:160-163 | the socket's counter is reset to 0 and nothing else changes |
| Sessions.PtyData | server/con.js:71-79 | the output is appended to the socket's emitted messages exactly when the socket is connected and the emit succeeds; otherwise the state is unchanged |
| Sessions.PtyExit | server/con.js:81-90 | the pty is marked exited and the registry keeps all its keys; the termination notice is emitted exactly when the socket is connected and the emit succeeds |
| Sessions.Shutdown | server/con.js:176-184 | kill() is called once on every registered pty; each stops unless its own kill threw, so one failure does not stop the others; the registry keeps every key; unregistered sessions are untouched |
| Sessions.Swept | server/con.js:178-184 | part-way through the sweep, the invariant holds and no key has been added to or removed from the registry or the sessions |
| Sessions.SweptOneMore | server/con.js:178-184 | one more step of the forEach is one more kill() on one registered pty object, seen through its closure and through its registry entry |
| Server.Bridge.constructor | server/con.js:47 | a new bridge has an empty registry and no sessions |
| Server.Bridge.SetPty | server/con.js:92 | updating a pty in place updates the closure's copy and the registry entry together |
| Server.Bridge.OnConnection | server/con.js:49-104 | the connection handler leaves exactly the state Sessions.Connect describes and keeps the invariant |
| Server.Bridge.OnInput | server/con.js:111-119 | the input handler leaves exactly the state Sessions.Input describes |
| Server.Bridge.OnResize | server/con.js:121-129 | the resize handler leaves exactly the state Sessions.Resize describes |
| Server.Bridge.OnDisconnect | server/con.js:131-141 | the disconnect handler leaves exactly the state Sessions.Disconnect describes |
| Server.Bridge.OnError | server/con.js:143-153 | the error handler leaves exactly the state Sessions.SocketError describes |
| Server.Bridge.OnReconnect | server/con.js:160-163 | the reconnect handler leaves exactly the state Sessions.Reconnect describes |
| Server.Bridge.OnPtyData | server/con.js:71-79 | the pty data handler leaves exactly the state Sessions.PtyData describes |
| Server.Bridge.OnPtyExit | server/con.js:81-90 | the pty exit handler leaves exactly the state Sessions.PtyExit describes |
| Server.Bridge.OnSigterm | server/con.js:176-184 | the forEach sweep, a loop over the registry's keys, leaves exactly the state Sessions.Shutdown describes |
| BridgeProperties.Apply | server/con.js:49-184 | every handled event keeps the invariant |
| BridgeProperties.Run | server/con.js:49-184 | from a valid state, after any series of enabled events the invariant Valid holds, each step resting on Apply keeping it: the counter never exceeds 5; every registry entry is the pty of its own socket's closure; no socket without a pty stays connected |
| BridgeProperties.EventsAreLocal | server/con.js:49-173 | an event addressed to one socket changes neither the session nor the registry entry of any other socket |
| BridgeProperties.ConnectRegistersOne | server/con.js:92-104 | a successful spawn grows the registry by exactly one entry; a failed one leaves its size alone |
| BridgeProperties.Inputs | server/con.js:111-119 | a series of input messages keeps the invariant |
| BridgeProperties.InputsArriveInOrder | server/con.js:111-119 | input written to a pty is exactly the messages sent, in order, with none dropped |
| BridgeProperties.Outputs | server/con.js:71-79 | a series of pty outputs keeps the invariant |
| BridgeProperties.OutputsArriveInOrder | server/con.js:71-79 | while connected, the socket receives exactly the pty's output in order; once disconnected, nothing is emitted |
| BridgeProperties.Errors | server/con.js:143-153 | a series of socket errors keeps the invariant |
| BridgeProperties.ErrorsSaturate | server/con.js:143-153 | after k errors the counter is min(a+k, 5) and min(k, 5-a) connect() requests were made; the socket stays connected exactly when a+k <= 5; the registry is unchanged |
| BridgeProperties.WithPtyOverwrites | server/con.js:92 | of two successive changes to one pty object, only the second is visible |
| BridgeProperties.ResizeLastWriteWins | server/con.js:121-129 | a successful resize after any earlier resize gives the same state as that resize alone (last write wins) |
| BridgeProperties.SweepKillsAll | server/con.js:176-184 | when every kill succeeds, no registered shell is left running, and the registry does not shrink |
| BridgeScenarios.ConnectThenDisconnect | server/con.js:49-141 | connect: the registry goes from 0 to 1 entry with a running shell; disconnect: back to 0, the shell stopped and the socket closed |
| BridgeScenarios.FailedSpawnIsClosed | server/con.js:94-104 | after a failed spawn nothing is registered, the socket is closed, and later input and errors change nothing |
| BridgeScenarios.ResizeBeforeOutput | server/con.js:59-129 | a fresh shell is 80x30; a resize to 120x40 before any output makes it exactly 120x40, in the closure and in the registry |
| BridgeScenarios.ExitKeepsDeadEntry | server/con.js:81-92 | after the shell exits, the connected client has received only the termination notice, and the registry entry remains, holding an exited shell |
| BridgeScenarios.KillFailureOrphansShell | server/con.js:131-141 | if kill() throws on disconnect, the registry is emptied but the shell is still running after one kill call |
| BridgeScenarios.ConnectAddsFreshShell | server/con.js:56-98 | a successful connection adds one running, never-killed shell to the registry |
| BridgeScenarios.ThreeActiveSessions | server/con.js:56-98 | three connections with distinct ids give three registered running shells, none yet killed |

## Left out

- The Express `/health` and `/` endpoints, the socket.io server options,
  `server.listen`, `server.close` and `process.exit`: HTTP and process
  plumbing with no effect on the bridge's state.
- The internals of node-pty and socket.io. Whether spawn, write, resize,
  kill and emit succeed is a parameter; the exit code is only logged and is
  not modelled. `socket.connect()` is recorded as a request count, because
  what socket.io then does is outside the model. `socket.disconnect(true)`
  only marks the socket closed. The `disconnect` event that socket.io then
  delivers is a separate `OnDisconnect` call. Both calls are assumed to
  return normally: `socket.connect()` (server/con.js:148) is outside any
  `try` and runs after the counter is raised at server/con.js:146, so if it
  threw, the error would escape the `error` handler with the counter
  already raised; `socket.disconnect(true)` (server/con.js:102, 151) is
  likewise outside any `try`. Neither escaping error is modelled.
- The transport-level `socket.conn.on('error')` ECONNRESET reconnect: it
  only calls into socket.io and changes no state of the bridge.
- The `upgrade` and `reconnect_attempt` handlers and all console logging:
  they only log.
- Concurrency and timing (ping intervals and timeouts). Events are a
  sequential series of method calls, in the order the event loop runs them.
- The `resize` payload is taken as an object with two integers. A missing
  or `null` payload makes the destructuring in the handler's parameter list
  (server/con.js:121) throw before the `try`, so the error escapes the
  handler; the model does not represent this uncaught error, nor what the
  process then does. `applied = false` stands only for a `resize()` that
  threw inside the `try` and was caught; a payload object whose `cols` or
  `rows` is non-numeric or non-integer, and node-pty's own validation of
  the size, fall under that outcome.
- PtyProcess.Kill: a `kill()` that does not throw is taken to stop the
  shell at once (`alive` becomes false). node-pty only sends a signal, and
  the shell's end is reported later by its `exit` event. The statements
  "no registered shell is left running" (`BridgeProperties.SweepKillsAll`)
  and "the shell stopped" (`BridgeScenarios.ConnectThenDisconnect`) rest on
  this.
- The iteration order of `connections.forEach` is not recorded. Each
  entry's kill is independent, so the order does not change the final state.
- The client (`client/src/App.jsx`) and `client/vite.config.js`: UI
  rendering, the socket.io client and build configuration.
