/** The bookkeeping of the session bridge, as values: the process-wide
    `connections` registry and, for every socket accepted by
    io.on('connection'), the variables its closure holds.  There is one
    function per event handler; Server.Bridge performs the same updates in
    place and is proved to agree with these functions. */
module Sessions {
  import opened Wrappers
  import opened PtyProcess
  import opened SocketChannel

  /** socket.id, unique per accepted socket. */
  type ConnId = string

  const MAX_RECONNECT_ATTEMPTS: nat := 5

  /** Sent to a still-connected client when its shell exits. */
  const TERMINATION_NOTICE: string := "\r\n\U{1B}[31mSession terminated.\U{1B}[0m\r\n"

  /** The closure of one io.on('connection') call: its socket, the
      `ptyProcess` variable (None while it is null) and `reconnectAttempts`.
      `ptyProcess` is assigned once, by a successful spawn, and never reset,
      so the socket's event handlers are installed exactly when it is Some. */
  datatype Session = Session(socket: Socket, ptyProcess: Option<Pty>, reconnectAttempts: nat)

  /** `connections` maps a socket id to the very pty object its closure holds. */
  datatype ServerState = ServerState(sessions: map<ConnId, Session>, connections: map<ConnId, Pty>)

  /** What every reachable state satisfies: a registry entry is the pty of
      that socket's closure (the Map and the closure share one object), the
      error counter stays within its limit, and a socket without a pty is
      never left connected. */
  ghost predicate Valid(s: ServerState) {
    && (forall c :: c in s.connections ==> c in s.sessions && s.sessions[c].ptyProcess == Some(s.connections[c]))
    && (forall c :: c in s.sessions ==> s.sessions[c].reconnectAttempts <= MAX_RECONNECT_ATTEMPTS)
    && (forall c :: c in s.sessions && s.sessions[c].ptyProcess.None? ==> !s.sessions[c].socket.connected)
  }

  /** The server at start-up: an empty registry and no sockets. */
  function Initial(): (s: ServerState)
    ensures Valid(s) && s.sessions == map[] && s.connections == map[]
  {
    ServerState(map[], map[])
  }

  /** The value of `ptyProcess` in the closure of socket `id`. */
  function PtyOf(s: ServerState, id: ConnId): Option<Pty> {
    if id in s.sessions then s.sessions[id].ptyProcess else None
  }

  /** Socket `id` was accepted and its pty spawned, so its handlers run. */
  predicate Listening(s: ServerState, id: ConnId) {
    PtyOf(s, id).Some?
  }

  /** Every session other than `id` and every registry entry other than
      `id`'s is exactly as before; no socket appears or disappears. */
  ghost predicate OthersUnchanged(s: ServerState, t: ServerState, id: ConnId) {
    && t.sessions.Keys == s.sessions.Keys
    && (forall c :: c in s.sessions && c != id ==> t.sessions[c] == s.sessions[c])
    && (forall c :: c != id ==> (c in t.connections <==> c in s.connections))
    && (forall c :: c in s.connections && c != id ==> t.connections[c] == s.connections[c])
  }

  /** A change to the pty object of socket `id`: it is seen through the
      closure and through the registry entry, if there is one. */
  function WithPty(s: ServerState, id: ConnId, p: Pty): (t: ServerState)
    requires Valid(s) && Listening(s, id)
    ensures Valid(t) && OthersUnchanged(s, t, id)
    ensures t.connections.Keys == s.connections.Keys
    ensures PtyOf(t, id) == Some(p)
    ensures t.sessions[id].socket == s.sessions[id].socket
    ensures t.sessions[id].reconnectAttempts == s.sessions[id].reconnectAttempts
  {
    ServerState(
      s.sessions[id := s.sessions[id].(ptyProcess := Some(p))],
      if id in s.connections then s.connections[id := p] else s.connections)
  }

  /** io.on('connection') with initializePty (server/con.js:49-104).  A
      successful spawn registers exactly one new entry, under the socket's
      id, holding a running 80x30 shell; a failed spawn registers nothing
      and forces the socket closed. */
  function Connect(s: ServerState, id: ConnId, platform: string, env: map<string, string>, spawned: bool): (t: ServerState)
    requires Valid(s)
    requires id !in s.sessions
    ensures Valid(t)
    ensures t.sessions.Keys == s.sessions.Keys + {id}
    ensures forall c :: c in s.sessions ==> t.sessions[c] == s.sessions[c]
    ensures forall c :: c in s.connections ==> c in t.connections && t.connections[c] == s.connections[c]
    ensures t.sessions[id].reconnectAttempts == 0 && t.sessions[id].socket.emitted == []
    ensures t.sessions[id].socket.connected <==> spawned
    ensures spawned ==> t.sessions[id].socket == Accepted()
    ensures !spawned ==> t.sessions[id].socket == Disconnected(Accepted())
    ensures spawned ==> t.connections.Keys == s.connections.Keys + {id}
    ensures spawned ==> PtyOf(t, id) == Some(t.connections[id])
    ensures spawned ==> t.connections[id].cols == DEFAULT_COLS && t.connections[id].rows == DEFAULT_ROWS
    ensures spawned ==> t.connections[id].alive && t.connections[id].written == [] && t.connections[id].killCalls == 0
    ensures spawned ==> t.connections[id].options == SpawnOptionsFor(platform, env)
    ensures !spawned ==> t.connections == s.connections && PtyOf(t, id) == None
  {
    var session := Session(Accepted(), None, 0);
    if spawned then
      var pty := Spawn(SpawnOptionsFor(platform, env));
      ServerState(s.sessions[id := session.(ptyProcess := Some(pty))], s.connections[id := pty])
    else
      ServerState(s.sessions[id := session.(socket := Disconnected(session.socket))], s.connections)
  }

  /** The 'input' handler (server/con.js:111-119): the data is written to
      the pty when there is one; a write that throws changes nothing. */
  function Input(s: ServerState, id: ConnId, data: string, written: bool): (t: ServerState)
    requires Valid(s)
    ensures Valid(t) && OthersUnchanged(s, t, id)
    ensures t.connections.Keys == s.connections.Keys
    ensures Listening(s, id) && written ==>
              && PtyOf(t, id).Some?
              && PtyOf(t, id).value.written == PtyOf(s, id).value.written + [data]
              && PtyOf(t, id).value.(written := []) == PtyOf(s, id).value.(written := [])
              && t.sessions[id].socket == s.sessions[id].socket
              && t.sessions[id].reconnectAttempts == s.sessions[id].reconnectAttempts
    ensures !(Listening(s, id) && written) ==> t == s
  {
    if Listening(s, id) && written then WithPty(s, id, Write(PtyOf(s, id).value, data)) else s
  }

  /** The 'resize' handler (server/con.js:121-129): the pty takes exactly
      the received size; a resize that throws changes nothing. */
  function Resize(s: ServerState, id: ConnId, cols: int, rows: int, applied: bool): (t: ServerState)
    requires Valid(s)
    ensures Valid(t) && OthersUnchanged(s, t, id)
    ensures t.connections.Keys == s.connections.Keys
    ensures Listening(s, id) && applied ==>
              && PtyOf(t, id).Some?
              && PtyOf(t, id).value.cols == cols && PtyOf(t, id).value.rows == rows
              && PtyOf(t, id).value.(cols := 0, rows := 0) == PtyOf(s, id).value.(cols := 0, rows := 0)
              && t.sessions[id].socket == s.sessions[id].socket
              && t.sessions[id].reconnectAttempts == s.sessions[id].reconnectAttempts
    ensures !(Listening(s, id) && applied) ==> t == s
  {
    if Listening(s, id) && applied then WithPty(s, id, ResizeTo(PtyOf(s, id).value, cols, rows)) else s
  }

  /** The 'disconnect' event (server/con.js:131-141): the socket is closed;
      when there is a pty, kill() is called on it and the socket's registry
      entry is deleted, whether or not kill() threw. */
  function Disconnect(s: ServerState, id: ConnId, killed: bool): (t: ServerState)
    requires Valid(s)
    ensures Valid(t) && OthersUnchanged(s, t, id)
    ensures t.connections.Keys == s.connections.Keys - {id}
    ensures id in s.sessions ==> t.sessions[id].socket == Disconnected(s.sessions[id].socket)
    ensures id in s.sessions ==>
              && !t.sessions[id].socket.connected
              && t.sessions[id].socket.emitted == s.sessions[id].socket.emitted
              && t.sessions[id].reconnectAttempts == s.sessions[id].reconnectAttempts
    ensures Listening(s, id) ==>
              && PtyOf(t, id).Some?
              && PtyOf(t, id).value.killCalls == PtyOf(s, id).value.killCalls + 1
              && PtyOf(t, id).value.alive == (PtyOf(s, id).value.alive && !killed)
              && PtyOf(t, id).value.(killCalls := 0, alive := false) == PtyOf(s, id).value.(killCalls := 0, alive := false)
    ensures !Listening(s, id) ==> PtyOf(t, id) == PtyOf(s, id)
    ensures id !in s.sessions ==> t == s
  {
    if id !in s.sessions then s
    else
      var session := s.sessions[id].(socket := Disconnected(s.sessions[id].socket));
      if session.ptyProcess.None? then
        ServerState(s.sessions[id := session], s.connections)
      else
        var pty := Kill(session.ptyProcess.value, killed);
        ServerState(s.sessions[id := session.(ptyProcess := Some(pty))], s.connections - {id})
  }

  /** The 'error' handler (server/con.js:143-153): below the limit the
      counter goes up by one and socket.connect() is called; at the limit
      the socket is forced closed.  The registry is not touched. */
  function SocketError(s: ServerState, id: ConnId): (t: ServerState)
    requires Valid(s)
    ensures Valid(t) && OthersUnchanged(s, t, id)
    ensures t.connections == s.connections
    ensures PtyOf(t, id) == PtyOf(s, id)
    ensures Listening(s, id) && s.sessions[id].reconnectAttempts < MAX_RECONNECT_ATTEMPTS ==>
              && t.sessions[id].reconnectAttempts == s.sessions[id].reconnectAttempts + 1
              && t.sessions[id].socket.connectCalls == s.sessions[id].socket.connectCalls + 1
              && t.sessions[id].socket.connected == s.sessions[id].socket.connected
              && t.sessions[id].socket.emitted == s.sessions[id].socket.emitted
    ensures Listening(s, id) && s.sessions[id].reconnectAttempts >= MAX_RECONNECT_ATTEMPTS ==>
              && t.sessions[id].reconnectAttempts == s.sessions[id].reconnectAttempts
              && !t.sessions[id].socket.connected
              && t.sessions[id].socket.connectCalls == s.sessions[id].socket.connectCalls
              && t.sessions[id].socket.emitted == s.sessions[id].socket.emitted
    ensures !Listening(s, id) ==> t == s
  {
    if !Listening(s, id) then s
    else
      var session := s.sessions[id];
      if session.reconnectAttempts < MAX_RECONNECT_ATTEMPTS then
        ServerState(s.sessions[id := session.(reconnectAttempts := session.reconnectAttempts + 1,
                                              socket := ConnectRequested(session.socket))], s.connections)
      else
        ServerState(s.sessions[id := session.(socket := Disconnected(session.socket))], s.connections)
  }

  /** The 'reconnect' handler (server/con.js:160-163): the counter is reset. */
  function Reconnect(s: ServerState, id: ConnId): (t: ServerState)
    requires Valid(s)
    ensures Valid(t) && OthersUnchanged(s, t, id)
    ensures t.connections == s.connections
    ensures Listening(s, id) ==>
              && t.sessions[id].reconnectAttempts == 0
              && t.sessions[id].socket == s.sessions[id].socket
              && PtyOf(t, id) == PtyOf(s, id)
    ensures !Listening(s, id) ==> t == s
  {
    if Listening(s, id) then
      ServerState(s.sessions[id := s.sessions[id].(reconnectAttempts := 0)], s.connections)
    else s
  }

  /** The pty's 'data' handler (server/con.js:71-79): the output is emitted
      on the socket only while the socket is connected; an emit that throws
      changes nothing. */
  function PtyData(s: ServerState, id: ConnId, data: string, delivered: bool): (t: ServerState)
    requires Valid(s)
    ensures Valid(t) && OthersUnchanged(s, t, id)
    ensures t.connections == s.connections
    ensures PtyOf(t, id) == PtyOf(s, id)
    ensures Listening(s, id) && s.sessions[id].socket.connected && delivered ==>
              && t.sessions[id].socket.emitted == s.sessions[id].socket.emitted + [data]
              && t.sessions[id].socket.connected
              && t.sessions[id].socket.connectCalls == s.sessions[id].socket.connectCalls
              && t.sessions[id].reconnectAttempts == s.sessions[id].reconnectAttempts
    ensures !(Listening(s, id) && s.sessions[id].socket.connected && delivered) ==> t == s
  {
    if Listening(s, id) && s.sessions[id].socket.connected && delivered then
      ServerState(s.sessions[id := s.sessions[id].(socket := Emit(s.sessions[id].socket, data))], s.connections)
    else s
  }

  /** The pty's 'exit' handler (server/con.js:81-90): the shell is no longer
      running and, while the socket is connected, the termination notice is
      emitted.  The registry entry is NOT removed: it stays, now holding an
      exited pty. */
  function PtyExit(s: ServerState, id: ConnId, delivered: bool): (t: ServerState)
    requires Valid(s)
    ensures Valid(t) && OthersUnchanged(s, t, id)
    ensures t.connections.Keys == s.connections.Keys
    ensures Listening(s, id) ==>
              && PtyOf(t, id).Some?
              && !PtyOf(t, id).value.alive
              && PtyOf(t, id).value.(alive := false) == PtyOf(s, id).value.(alive := false)
              && t.sessions[id].reconnectAttempts == s.sessions[id].reconnectAttempts
              && t.sessions[id].socket.connected == s.sessions[id].socket.connected
              && t.sessions[id].socket.connectCalls == s.sessions[id].socket.connectCalls
    ensures Listening(s, id) && s.sessions[id].socket.connected && delivered ==>
              t.sessions[id].socket.emitted == s.sessions[id].socket.emitted + [TERMINATION_NOTICE]
    ensures Listening(s, id) && !(s.sessions[id].socket.connected && delivered) ==>
              t.sessions[id].socket.emitted == s.sessions[id].socket.emitted
    ensures !Listening(s, id) ==> t == s
  {
    if !Listening(s, id) then s
    else
      var t := WithPty(s, id, Exited(PtyOf(s, id).value));
      if t.sessions[id].socket.connected && delivered then
        ServerState(t.sessions[id := t.sessions[id].(socket := Emit(t.sessions[id].socket, TERMINATION_NOTICE))], t.connections)
      else t
  }

  /** The SIGTERM sweep (server/con.js:176-184): kill() is called once on
      every registered pty; those in `failed` threw, which does not stop
      the others.  The registry keeps all its keys, and sessions without a
      registry entry are not touched. */
  function Shutdown(s: ServerState, failed: set<ConnId>): (t: ServerState)
    requires Valid(s)
    ensures Valid(t)
    ensures t.connections.Keys == s.connections.Keys
    ensures t.sessions.Keys == s.sessions.Keys
    ensures forall c :: c in s.connections ==>
              && t.connections[c].killCalls == s.connections[c].killCalls + 1
              && t.connections[c].alive == (s.connections[c].alive && c in failed)
              && t.connections[c].(killCalls := 0, alive := false) == s.connections[c].(killCalls := 0, alive := false)
    ensures forall c :: c in s.connections ==>
              t.sessions[c] == s.sessions[c].(ptyProcess := Some(t.connections[c]))
    ensures forall c :: c in s.sessions && c !in s.connections ==> t.sessions[c] == s.sessions[c]
  {
    Swept(s, failed, s.connections.Keys)
  }

  /** The sweep part-way through: kill() has been called on the registered
      ptys whose keys are in `done`, and on no other. */
  function Swept(s: ServerState, failed: set<ConnId>, done: set<ConnId>): (t: ServerState)
    requires Valid(s)
    ensures Valid(t)
    ensures t.connections.Keys == s.connections.Keys && t.sessions.Keys == s.sessions.Keys
  {
    ServerState(
      map c | c in s.sessions ::
        if c in s.connections && c in done then s.sessions[c].(ptyProcess := Some(Kill(s.connections[c], c !in failed)))
        else s.sessions[c],
      map c | c in s.connections :: if c in done then Kill(s.connections[c], c !in failed) else s.connections[c])
  }

  /** One more step of the sweep is one more kill() on one pty object. */
  lemma SweptOneMore(s: ServerState, failed: set<ConnId>, done: set<ConnId>, c: ConnId)
    requires Valid(s) && c in s.connections && c !in done
    ensures Listening(Swept(s, failed, done), c)
    ensures Swept(s, failed, done + {c}) == WithPty(Swept(s, failed, done), c, Kill(s.connections[c], c !in failed))
  {
    var t := Swept(s, failed, done);
    var p := Kill(s.connections[c], c !in failed);
    assert t.sessions[c] == s.sessions[c];
    var v := Swept(s, failed, done + {c});
    assert v.connections == t.connections[c := p];
    assert v.sessions == t.sessions[c := t.sessions[c].(ptyProcess := Some(p))];
  }


}
