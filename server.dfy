/** The session bridge as the server runs it: the `connections` Map
    (server/con.js:47) and the per-socket closure variables are fields that
    each event handler updates in place.  Every handler is proved to leave
    exactly the state the matching function of module Sessions describes,
    so the properties proved there hold of the object. */
module Server {
  import opened Wrappers
  import opened PtyProcess
  import opened SocketChannel
  import opened Sessions

  class Bridge {
    /** The closure of every socket io.on('connection') was called with. */
    var sessions: map<ConnId, Session>
    /** The registry: socket id to the pty object the socket's closure holds. */
    var connections: map<ConnId, Pty>

    function State(): ServerState
      reads this
    {
      ServerState(sessions, connections)
    }

    ghost predicate Valid()
      reads this
    {
      Sessions.Valid(State())
    }

    /** Server start-up: an empty registry. */
    constructor ()
      ensures Valid() && State() == Initial()
    {
      sessions := map[];
      connections := map[];
    }

    /** A change to the pty object of socket `id`; the registry holds the
        same object, so its entry changes with it. */
    method SetPty(id: ConnId, p: Pty)
      requires Valid() && Listening(State(), id)
      modifies this
      ensures Valid()
      ensures State() == WithPty(old(State()), id, p)
    {
      sessions := sessions[id := sessions[id].(ptyProcess := Some(p))];
      if id in connections {
        connections := connections[id := p];
      }
    }

    /** io.on('connection'): run initializePty, and force the socket closed
        when the spawn failed.  `spawned` is the outcome of pty.spawn. */
    method OnConnection(id: ConnId, platform: string, env: map<string, string>, spawned: bool)
      requires Valid() && id !in sessions
      modifies this
      ensures Valid()
      ensures State() == Connect(old(State()), id, platform, env, spawned)
    {
      var socket := Accepted();
      if spawned {
        var pty := Spawn(SpawnOptionsFor(platform, env));
        sessions := sessions[id := Session(socket, Some(pty), 0)];
        connections := connections[id := pty];
      } else {
        sessions := sessions[id := Session(Disconnected(socket), None, 0)];
      }
    }

    /** socket.on('input').  `written` is false when ptyProcess.write threw. */
    method OnInput(id: ConnId, data: string, written: bool)
      requires Valid()
      modifies this
      ensures Valid()
      ensures State() == Input(old(State()), id, data, written)
    {
      if id in sessions && sessions[id].ptyProcess.Some? {
        var pty := sessions[id].ptyProcess.value;
        if written {
          SetPty(id, Write(pty, data));
        }
      }
    }

    /** socket.on('resize').  `applied` is false when ptyProcess.resize threw. */
    method OnResize(id: ConnId, cols: int, rows: int, applied: bool)
      requires Valid()
      modifies this
      ensures Valid()
      ensures State() == Resize(old(State()), id, cols, rows, applied)
    {
      if id in sessions && sessions[id].ptyProcess.Some? {
        var pty := sessions[id].ptyProcess.value;
        if applied {
          SetPty(id, ResizeTo(pty, cols, rows));
        }
      }
    }

    /** socket.on('disconnect').  `killed` is false when ptyProcess.kill threw. */
    method OnDisconnect(id: ConnId, killed: bool)
      requires Valid()
      modifies this
      ensures Valid()
      ensures State() == Disconnect(old(State()), id, killed)
    {
      if id in sessions {
        var session := sessions[id];
        session := session.(socket := Disconnected(session.socket));
        if session.ptyProcess.Some? {
          var pty := Kill(session.ptyProcess.value, killed);
          session := session.(ptyProcess := Some(pty));
          connections := connections - {id};
        }
        sessions := sessions[id := session];
      }
    }

    /** socket.on('error'). */
    method OnError(id: ConnId)
      requires Valid()
      modifies this
      ensures Valid()
      ensures State() == SocketError(old(State()), id)
    {
      if id in sessions && sessions[id].ptyProcess.Some? {
        var session := sessions[id];
        if session.reconnectAttempts < MAX_RECONNECT_ATTEMPTS {
          session := session.(reconnectAttempts := session.reconnectAttempts + 1);
          session := session.(socket := ConnectRequested(session.socket));
        } else {
          session := session.(socket := Disconnected(session.socket));
        }
        sessions := sessions[id := session];
      }
    }

    /** socket.on('reconnect'). */
    method OnReconnect(id: ConnId)
      requires Valid()
      modifies this
      ensures Valid()
      ensures State() == Reconnect(old(State()), id)
    {
      if id in sessions && sessions[id].ptyProcess.Some? {
        sessions := sessions[id := sessions[id].(reconnectAttempts := 0)];
      }
    }

    /** ptyProcess.on('data').  `delivered` is false when socket.emit threw. */
    method OnPtyData(id: ConnId, data: string, delivered: bool)
      requires Valid()
      modifies this
      ensures Valid()
      ensures State() == PtyData(old(State()), id, data, delivered)
    {
      if id in sessions && sessions[id].ptyProcess.Some? {
        var session := sessions[id];
        if session.socket.connected && delivered {
          sessions := sessions[id := session.(socket := Emit(session.socket, data))];
        }
      }
    }

    /** ptyProcess.on('exit').  `delivered` is false when socket.emit threw. */
    method OnPtyExit(id: ConnId, delivered: bool)
      requires Valid()
      modifies this
      ensures Valid()
      ensures State() == PtyExit(old(State()), id, delivered)
    {
      if id in sessions && sessions[id].ptyProcess.Some? {
        SetPty(id, Exited(sessions[id].ptyProcess.value));
        var session := sessions[id];
        if session.socket.connected && delivered {
          sessions := sessions[id := session.(socket := Emit(session.socket, TERMINATION_NOTICE))];
        }
      }
    }

    /** process.on('SIGTERM'): connections.forEach calls kill() on every
        registered pty; `failed` holds the sockets whose kill() threw. */
    method OnSigterm(failed: set<ConnId>)
      requires Valid()
      modifies this
      ensures Valid()
      ensures State() == Shutdown(old(State()), failed)
    {
      var pending := connections.Keys;
      ghost var done: set<ConnId> := {};
      while pending != {}
        invariant Sessions.Valid(old(State()))
        invariant pending !! done && pending + done == old(connections.Keys)
        invariant State() == Swept(old(State()), failed, done)
        decreases pending
      {
        var c :| c in pending;
        SweptOneMore(old(State()), failed, done, c);
        SetPty(c, Kill(connections[c], c !in failed));
        pending, done := pending - {c}, done + {c};
      }
    }
  }
}
