/** Single sessions followed from server start-up through the code as
    written, including its teardown: the pty's 'exit' handler leaves the
    registry entry in place (server/con.js:81-90), and a disconnect whose
    kill() throws unregisters a shell that is still running
    (server/con.js:131-141). */
module BridgeScenarios {
  import S = Sessions
  import P = BridgeProperties

  /** A client connects, so one shell is registered; it disconnects, so the
      registry is empty again and the shell no longer runs. */
  lemma ConnectThenDisconnect(platform: string, env: map<string, string>)
    ensures var s1 := S.Connect(S.Initial(), "a", platform, env, true);
      && |s1.connections| == 1
      && S.PtyOf(s1, "a").value.alive
    ensures var s2 := S.Disconnect(S.Connect(S.Initial(), "a", platform, env, true), "a", true);
      && |s2.connections| == 0
      && !S.PtyOf(s2, "a").value.alive
      && !s2.sessions["a"].socket.connected
  {

  }

  /** A failed spawn: nothing is registered, the socket is closed, and the
      socket's later messages have no handler to reach. */
  lemma FailedSpawnIsClosed(platform: string, env: map<string, string>, data: string)
    ensures var s1 := S.Connect(S.Initial(), "a", platform, env, false);
      && s1.connections == map[]
      && !s1.sessions["a"].socket.connected
      && S.Input(s1, "a", data, true) == s1
      && S.SocketError(s1, "a") == s1
  {
  }

  /** A resize that arrives before any output gives exactly the requested
      size, in place of the initial 80x30. */
  lemma ResizeBeforeOutput(platform: string, env: map<string, string>)
    ensures var s1 := S.Connect(S.Initial(), "a", platform, env, true);
      && S.PtyOf(s1, "a").value.cols == 80 && S.PtyOf(s1, "a").value.rows == 30
    ensures var s2 := S.Resize(S.Connect(S.Initial(), "a", platform, env, true), "a", 120, 40, true);
      && S.PtyOf(s2, "a").value.cols == 120 && S.PtyOf(s2, "a").value.rows == 40
      && s2.connections["a"] == S.PtyOf(s2, "a").value
  {
  }

  /** The shell exits on its own: the connected client gets the termination
      notice, and the registry entry stays, holding an exited shell. */
  lemma ExitKeepsDeadEntry(platform: string, env: map<string, string>)
    ensures var s2 := S.PtyExit(S.Connect(S.Initial(), "a", platform, env, true), "a", true);
      && "a" in s2.connections
      && !s2.connections["a"].alive
      && s2.sessions["a"].socket.emitted == [S.TERMINATION_NOTICE]
  {

  }

  /** A kill() that throws on disconnect still unregisters the socket,
      which leaves a running shell that the registry no longer reaches. */
  lemma KillFailureOrphansShell(platform: string, env: map<string, string>)
    ensures var s2 := S.Disconnect(S.Connect(S.Initial(), "a", platform, env, true), "a", false);
      && s2.connections == map[]
      && S.PtyOf(s2, "a").value.alive
      && S.PtyOf(s2, "a").value.killCalls == 1
  {

  }

  /** Every registered shell is running and has never been asked to die. */
  ghost predicate AllFresh(s: S.ServerState) {
    forall c :: c in s.connections ==> s.connections[c].alive && s.connections[c].killCalls == 0
  }

  lemma ConnectAddsFreshShell(s: S.ServerState, id: S.ConnId, platform: string, env: map<string, string>)
    requires S.Valid(s) && id !in s.sessions && AllFresh(s)
    ensures AllFresh(S.Connect(s, id, platform, env, true))
    ensures |S.Connect(s, id, platform, env, true).connections| == |s.connections| + 1
  {
    P.ConnectRegistersOne(s, id, platform, env, true);
  }

  /** Three clients connect: three running shells are registered, each of
      which the SIGTERM sweep then kills (see BridgeProperties.SweepKillsAll). */
  lemma ThreeActiveSessions(a: S.ConnId, b: S.ConnId, c: S.ConnId, platform: string, env: map<string, string>)
    requires a != b && a != c && b != c
    ensures var s3 := S.Connect(S.Connect(S.Connect(S.Initial(), a, platform, env, true), b, platform, env, true), c, platform, env, true);
      && |s3.connections| == 3
      && AllFresh(s3)
  {
    var s0 := S.Initial();
    ConnectAddsFreshShell(s0, a, platform, env);
    var s1 := S.Connect(s0, a, platform, env, true);
    ConnectAddsFreshShell(s1, b, platform, env);
    var s2 := S.Connect(s1, b, platform, env, true);
    ConnectAddsFreshShell(s2, c, platform, env);
  }
}
