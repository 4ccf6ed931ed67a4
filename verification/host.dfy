/** The tmux invocations the tool issues, the argument vectors it passes
    (the program name is always `tmux`), and what a finished invocation
    reports back. */
module Host {
  import opened Common

  /** A process exit status as the operating system reports it: one byte. */
  type ExitStatusCode = c: int | 0 <= c < 256

  /** What `Command::status` yields: the process could not be spawned, or it
      ran and exited, with an exit code unless a signal ended it. */
  datatype Status = SpawnFailed | Exited(code: Option<ExitStatusCode>)

  /** `ExitStatus::success`: the process ran and exited with code 0. A process
      that could not be spawned, or that a signal ended, never succeeded. */
  function Success(st: Status): (r: bool)
    ensures r ==> st.Exited? && st.code.Some?
  {
    st.Exited? && st.code == Some(0)
  }

  datatype Call =
    | DisplayParent
    | DetachClient(socket: string)
    | HasSession(socket: string, session: string)
    | NewSession(socket: string, session: string, command: Option<string>)
    | StatusOff(socket: string, session: string)
    | Popup(body: string)

  const PopupFlags: seq<string> := ["popup", "-d", "#{pane_current_path}", "-xC", "-yC", "-w95%", "-h95%", "-E"]

  /** The arguments handed to `tmux` for a call. Every call but the parent
      query and the popup is scoped to its socket by a leading `-L <socket>`;
      the popup body and the optional command come last. */
  function Argv(c: Call): (r: seq<string>)
    ensures !c.DisplayParent? && !c.Popup? ==> 3 <= |r| && r[0] == "-L" && r[1] == c.socket
    ensures c.DetachClient? ==> r[2] == "detach-client"
    ensures c.HasSession? ==> r[2] == "has-session"
    ensures c.NewSession? ==> 6 <= |r| && r[2..5] == ["new-session", "-d", "-s"]
    ensures c.StatusOff? ==> |r| == 7 && r[2] == "set-option" && r[5..] == ["status", "off"]
    ensures c.Popup? ==> |r| == |PopupFlags| + 1 && r[..|PopupFlags|] == PopupFlags && r[|PopupFlags|] == c.body
    ensures c.NewSession? ==> |r| == (if c.command.Some? then 7 else 6) && r[5] == c.session
    ensures c.NewSession? && c.command.Some? ==> r[6] == c.command.value
    ensures c.HasSession? || c.StatusOff? ==> 5 <= |r| && r[3] == "-t" && r[4] == c.session
  {
    match c
    case DisplayParent => ["display-message", "-p", "#{session_name}"]
    case DetachClient(socket) => ["-L", socket, "detach-client"]
    case HasSession(socket, session) => ["-L", socket, "has-session", "-t", session]
    case NewSession(socket, session, command) =>
      ["-L", socket, "new-session", "-d", "-s", session] + (if command.Some? then [command.value] else [])
    case StatusOff(socket, session) => ["-L", socket, "set-option", "-t", session, "status", "off"]
    case Popup(body) => PopupFlags + [body]
  }

  /** Decoder for the vectors `Argv` builds: the call a vector was built
      from, or None for a vector `Argv` never produces. */
  function ParseArgv(argv: seq<string>): (c: Option<Call>)
    ensures c.Some? ==> Argv(c.value) == argv
  {
    if argv == ["display-message", "-p", "#{session_name}"] then
      Some(DisplayParent)
    else if |argv| < 3 || argv[0] != "-L" then
      if |argv| == |PopupFlags| + 1 && argv[..|PopupFlags|] == PopupFlags then
        assert argv == PopupFlags + [argv[|PopupFlags|]];
        Some(Popup(argv[|PopupFlags|]))
      else
        None
    else if |argv| == 3 && argv[2] == "detach-client" then
      Some(DetachClient(argv[1]))
    else if |argv| == 5 && argv[2] == "has-session" && argv[3] == "-t" then
      Some(HasSession(argv[1], argv[4]))
    else if 6 <= |argv| <= 7 && argv[2] == "new-session" && argv[3] == "-d" && argv[4] == "-s" then
      Some(NewSession(argv[1], argv[5], if |argv| == 7 then Some(argv[6]) else None))
    else if |argv| == 7 && argv[2] == "set-option" && argv[3] == "-t" && argv[5] == "status" && argv[6] == "off" then
      Some(StatusOff(argv[1], argv[4]))
    else
      None
  }

  /** Distinct calls never share an argument vector: the vector determines the call. */
  lemma ArgvRoundTrip(c: Call)
    ensures ParseArgv(Argv(c)) == Some(c)
  {
  }
}
