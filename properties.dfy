/** Properties of the bridge over series of events: the state invariant
    holds after any admissible series, input and output keep their order,
    the error counter saturates at its limit, resizes are last-write-wins,
    and an event on one socket leaves every other socket alone; the SIGTERM
    sweep kills every registered shell and deletes no entry
    (server/con.js:178-184). */
module BridgeProperties {
  import opened PtyProcess
  import S = Sessions

  type ConnId = S.ConnId

  /** One event delivered to the server, with the outcome of the library
      call it makes (spawn, write, resize, kill, emit). */
  datatype Event =
    | Connection(id: ConnId, platform: string, env: map<string, string>, spawned: bool)
    | Input(id: ConnId, data: string, written: bool)
    | Resize(id: ConnId, cols: int, rows: int, applied: bool)
    | Disconnect(id: ConnId, killed: bool)
    | Error(id: ConnId)
    | Reconnect(id: ConnId)
    | PtyData(id: ConnId, data: string, delivered: bool)
    | PtyExit(id: ConnId, delivered: bool)
    | Sigterm(failed: set<ConnId>)

  /** socket.io hands io.on('connection') a socket id not already in use. */
  predicate Enabled(s: S.ServerState, e: Event) {
    e.Connection? ==> e.id !in s.sessions
  }

  function Apply(s: S.ServerState, e: Event): (t: S.ServerState)
    requires S.Valid(s) && Enabled(s, e)
    ensures S.Valid(t)
  {
    match e
    case Connection(id, platform, env, spawned) => S.Connect(s, id, platform, env, spawned)
    case Input(id, data, written) => S.Input(s, id, data, written)
    case Resize(id, cols, rows, applied) => S.Resize(s, id, cols, rows, applied)
    case Disconnect(id, killed) => S.Disconnect(s, id, killed)
    case Error(id) => S.SocketError(s, id)
    case Reconnect(id) => S.Reconnect(s, id)
    case PtyData(id, data, delivered) => S.PtyData(s, id, data, delivered)
    case PtyExit(id, delivered) => S.PtyExit(s, id, delivered)
    case Sigterm(failed) => S.Shutdown(s, failed)
  }

  /** Every event of `es` is enabled in the state it is delivered in. */
  ghost predicate Admissible(s: S.ServerState, es: seq<Event>)
    requires S.Valid(s)
    decreases |es|
  {
    es != [] ==> Enabled(s, es[0]) && Admissible(Apply(s, es[0]), es[1..])
  }

  /** The state after delivering `es` in order.  Starting from a valid
      state, whatever the events and whatever the library calls do, the
      invariant holds afterwards: every registry entry is its socket's own
      pty, no counter exceeds MAX_RECONNECT_ATTEMPTS, and no socket without
      a pty stays connected.  Each step rests on Apply keeping the invariant. */
  function Run(s: S.ServerState, es: seq<Event>): (t: S.ServerState)
    requires S.Valid(s) && Admissible(s, es)
    ensures S.Valid(t)
    decreases |es|
  {
    if es == [] then s else Run(Apply(s, es[0]), es[1..])
  }

  /** An event addressed to socket `id` (every event but the SIGTERM sweep)
      changes neither the session nor the registry entry of any other socket. */
  lemma EventsAreLocal(s: S.ServerState, e: Event, c: ConnId)
    requires S.Valid(s) && Enabled(s, e)
    requires !e.Sigterm? && e.id != c
    ensures c in s.sessions ==> c in Apply(s, e).sessions && Apply(s, e).sessions[c] == s.sessions[c]
    ensures c in Apply(s, e).connections <==> c in s.connections
    ensures c in s.connections ==> Apply(s, e).connections[c] == s.connections[c]
  {
  }

  /** A successful spawn grows the registry by exactly one entry; a failed
      one leaves its size alone. */
  lemma ConnectRegistersOne(s: S.ServerState, id: ConnId, platform: string, env: map<string, string>, spawned: bool)
    requires S.Valid(s) && id !in s.sessions
    ensures spawned ==> |S.Connect(s, id, platform, env, spawned).connections| == |s.connections| + 1
    ensures !spawned ==> |S.Connect(s, id, platform, env, spawned).connections| == |s.connections|
  {

  }

  /** The pty of socket `id` after each of `ds` arrived as an 'input'
      message and was written. */
  function Inputs(s: S.ServerState, id: ConnId, ds: seq<string>): (t: S.ServerState)
    requires S.Valid(s)
    ensures S.Valid(t)
    decreases |ds|
  {
    if ds == [] then s else Inputs(S.Input(s, id, ds[0], true), id, ds[1..])
  }

  /** Input reaches the pty in the order it was sent, nothing dropped. */
  lemma {:induction false} InputsArriveInOrder(s: S.ServerState, id: ConnId, ds: seq<string>)
    requires S.Valid(s) && S.Listening(s, id)
    ensures S.Listening(Inputs(s, id, ds), id)
    ensures S.PtyOf(Inputs(s, id, ds), id).value.written == S.PtyOf(s, id).value.written + ds
    decreases |ds|
  {
    if ds != [] {
      var s' := S.Input(s, id, ds[0], true);
      InputsArriveInOrder(s', id, ds[1..]);
      assert ds == [ds[0]] + ds[1..];
    }
  }

  /** The socket of `id` after the pty produced each of `ds` and every emit
      went through. */
  function Outputs(s: S.ServerState, id: ConnId, ds: seq<string>): (t: S.ServerState)
    requires S.Valid(s)
    ensures S.Valid(t)
    decreases |ds|
  {
    if ds == [] then s else Outputs(S.PtyData(s, id, ds[0], true), id, ds[1..])
  }

  /** While the socket stays connected, pty output reaches it in the order
      produced; once it is disconnected, nothing is emitted at all. */
  lemma {:induction false} OutputsArriveInOrder(s: S.ServerState, id: ConnId, ds: seq<string>)
    requires S.Valid(s) && S.Listening(s, id)
    ensures S.Listening(Outputs(s, id, ds), id)
    ensures Outputs(s, id, ds).sessions[id].socket.connected == s.sessions[id].socket.connected
    ensures s.sessions[id].socket.connected ==>
              Outputs(s, id, ds).sessions[id].socket.emitted == s.sessions[id].socket.emitted + ds
    ensures !s.sessions[id].socket.connected ==> Outputs(s, id, ds) == s
    decreases |ds|
  {
    if ds != [] {
      var s' := S.PtyData(s, id, ds[0], true);
      OutputsArriveInOrder(s', id, ds[1..]);
      assert ds == [ds[0]] + ds[1..];
    }
  }

  /** The state after `k` socket errors on `id` with no reconnect between. */
  function Errors(s: S.ServerState, id: ConnId, k: nat): (t: S.ServerState)
    requires S.Valid(s)
    ensures S.Valid(t)
    decreases k
  {
    if k == 0 then s else Errors(S.SocketError(s, id), id, k - 1)
  }

  function Min(a: int, b: int): int {
    if a <= b then a else b
  }

  /** Errors count up to MAX_RECONNECT_ATTEMPTS, each asking the socket to
      connect again; every error past the limit forces the socket closed.
      The registry is never touched. */
  lemma {:induction false} ErrorsSaturate(s: S.ServerState, id: ConnId, k: nat)
    requires S.Valid(s) && S.Listening(s, id)
    ensures var t := Errors(s, id, k);
      && S.Listening(t, id)
      && t.connections == s.connections
      && t.sessions[id].reconnectAttempts == Min(s.sessions[id].reconnectAttempts + k, S.MAX_RECONNECT_ATTEMPTS)
      && t.sessions[id].socket.connectCalls
           == s.sessions[id].socket.connectCalls + Min(k, S.MAX_RECONNECT_ATTEMPTS - s.sessions[id].reconnectAttempts)
      && t.sessions[id].socket.connected
           == (s.sessions[id].socket.connected && s.sessions[id].reconnectAttempts + k <= S.MAX_RECONNECT_ATTEMPTS)
    decreases k
  {
    if k > 0 {
      ErrorsSaturate(S.SocketError(s, id), id, k - 1);
    }
  }

  /** Two changes to one pty object: only the second is visible. */
  lemma WithPtyOverwrites(s: S.ServerState, id: ConnId, p1: Pty, p2: Pty)
    requires S.Valid(s) && S.Listening(s, id)
    ensures S.WithPty(S.WithPty(s, id, p1), id, p2) == S.WithPty(s, id, p2)
  {
  }

  /** A second successful resize overwrites the first: only the last size
      received counts, and nothing accumulates. */
  lemma ResizeLastWriteWins(s: S.ServerState, id: ConnId, cols1: int, rows1: int, applied1: bool, cols2: int, rows2: int)
    requires S.Valid(s)
    ensures S.Resize(S.Resize(s, id, cols1, rows1, applied1), id, cols2, rows2, true)
         == S.Resize(s, id, cols2, rows2, true)
  {
  }

  /** The SIGTERM sweep with every kill() succeeding: no registered shell is
      left running, yet the registry keeps every one of its entries. */
  lemma SweepKillsAll(s: S.ServerState)
    requires S.Valid(s)
    ensures |S.Shutdown(s, {}).connections| == |s.connections|
    ensures forall c :: c in S.Shutdown(s, {}).connections ==> !S.Shutdown(s, {}).connections[c].alive
  {

  }
}
