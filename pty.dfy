/** The node-pty process handle, as an opaque record.  The model keeps only
    what the bridge's handlers can change or observe: the options it was
    spawned with, its window size, whether the shell is still running, the
    input written to it, and how many times kill() was called on it. */
module PtyProcess {
  import opened Wrappers

  /** Initial window size requested from pty.spawn (server/con.js:61-62). */
  const DEFAULT_COLS: int := 80
  const DEFAULT_ROWS: int := 30

  /** The arguments of the pty.spawn call. */
  datatype SpawnOptions = SpawnOptions(
    shell: string,
    args: seq<string>,
    name: string,
    cols: int,
    rows: int,
    cwd: Option<string>,
    env: map<string, string>)

  datatype Pty = Pty(
    options: SpawnOptions,
    cols: int,
    rows: int,
    alive: bool,
    written: seq<string>,
    killCalls: nat)

  /** PowerShell on Windows, bash everywhere else. */
  function ShellFor(platform: string): (shell: string)
    ensures shell == "powershell.exe" <==> platform == "win32"
    ensures platform != "win32" ==> shell == "bash"
  {
    if platform == "win32" then "powershell.exe" else "bash"
  }

  /** The options initializePty passes to pty.spawn, given the host platform
      and the server's own environment: the environment is copied with TERM
      and COLORTERM overridden, and the working directory is HOME (absent
      when HOME is unset). */
  function SpawnOptionsFor(platform: string, env: map<string, string>): (o: SpawnOptions)
    ensures o.shell == ShellFor(platform) && o.args == [] && o.name == "xterm-color"
    ensures o.cols == DEFAULT_COLS && o.rows == DEFAULT_ROWS
    ensures o.cwd.Some? <==> "HOME" in env
    ensures o.cwd.Some? ==> o.cwd.value == env["HOME"]
    ensures o.env.Keys == env.Keys + {"TERM", "COLORTERM"}
    ensures o.env["TERM"] == "xterm-256color" && o.env["COLORTERM"] == "truecolor"
    ensures forall k :: k in env && k != "TERM" && k != "COLORTERM" ==> o.env[k] == env[k]
  {
    SpawnOptions(
      ShellFor(platform), [], "xterm-color", DEFAULT_COLS, DEFAULT_ROWS,
      if "HOME" in env then Some(env["HOME"]) else None,
      env["TERM" := "xterm-256color"]["COLORTERM" := "truecolor"])
  }

  /** A freshly spawned, running shell at the requested size. */
  function Spawn(o: SpawnOptions): Pty {
    Pty(o, o.cols, o.rows, true, [], 0)
  }

  /** A successful ptyProcess.write(data). */
  function Write(p: Pty, data: string): Pty {
    p.(written := p.written + [data])
  }

  /** A successful ptyProcess.resize(cols, rows). */
  function ResizeTo(p: Pty, cols: int, rows: int): Pty {
    p.(cols := cols, rows := rows)
  }

  /** A call of ptyProcess.kill(); when it throws, the shell is left as it
      was.  A kill() that does not throw is taken to stop the shell at once;
      node-pty itself only sends a signal and reports the end later through
      the 'exit' event. */
  function Kill(p: Pty, succeeded: bool): Pty {
    p.(killCalls := p.killCalls + 1, alive := p.alive && !succeeded)
  }

  /** The shell terminated (its 'exit' event). */
  function Exited(p: Pty): Pty {
    p.(alive := false)
  }
}
