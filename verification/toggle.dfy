/** The toggle: deriving the popup identity, probing tmux, and the calls
    `main` issues to hide, create or show the popup (src/main.rs:18-151).
    The environment and every tmux reply are inputs; a run returns the calls
    issued, in order, and how the process ends. */
module Toggle {
  import opened Common
  import opened Text
  import opened Naming
  import opened Host

  const NotInTmux: string := "Not running inside a tmux session"
  const ParentQueryFailed: string := "Failed to get parent session name"
  const DetachFailed: string := "Failed to detach client"
  const CreateFailed: string := "Failed to create session"
  const StatusOffFailed: string := "Failed to set status off"
  const PopupFailed: string := "Failed to show popup"

  /** What the process finds around it: the `TMUX` variable (None when it is
      unset or not Unicode), the parent session name tmux reports (None when
      tmux could not be spawned), and the status of each later tmux call. */
  datatype Env = Env(
    tmux: Option<string>,
    parentName: Option<string>,
    detachStatus: Status,
    hasSessionStatus: Status,
    newSessionStatus: Status,
    setOptionStatus: Status,
    popupStatus: Status)

  /** Part of a run: the calls it issued and what it returned. */
  datatype Step<+T> = Step(calls: seq<Call>, result: Result<T>)

  /** How the process ends: `exit(code)`, or `main` returning an error. */
  datatype Outcome = Exit(code: ExitStatusCode) | Fatal(message: string)

  datatype Run = Run(calls: seq<Call>, outcome: Outcome)

  /** The process exit status; an error returned from `main` exits with 1,
      so status 0 always means an explicit `exit(0)`. */
  function ExitCode(o: Outcome): (r: ExitStatusCode)
    ensures r == 0 ==> o == Exit(0)
    ensures o.Fatal? ==> r != 0
  {
    match o
    case Exit(code) => code
    case Fatal(_) => 1
  }

  /** `TmuxSession::new`: refuses to run outside tmux before calling it, then
      asks tmux for the parent session name and derives the identity. */
  function New(command: Option<string>, env: Env): (r: Step<TmuxSession>)
    ensures r.calls == [] <==> env.tmux.None?
    ensures env.tmux.None? ==> r.result == Err(NotInTmux)
    ensures env.tmux.Some? && env.parentName.None? ==> r.result == Err(ParentQueryFailed)
    ensures r.calls != [] ==> r.calls == [DisplayParent]
    ensures r.result.Ok? <==> env.tmux.Some? && env.parentName.Some?
    ensures r.result.Ok? ==>
              && SocketCommand(Sanitize(env.parentName.value), r.result.value.socketName) == Some(command)
              && SessionCommand(Sanitize(env.parentName.value), r.result.value.sessionName) == Some(command)
  {
    if env.tmux.None? then
      Step([], Err(NotInTmux))
    else if env.parentName.None? then
      Step([DisplayParent], Err(ParentQueryFailed))
    else
      Step([DisplayParent], Ok(Identify(env.parentName.value, command)))
  }

  /** `is_attached`: the `TMUX` variable is set and mentions the socket name. */
  function IsAttached(h: TmuxSession, tmux: Option<string>): (r: bool)
    ensures r <==> tmux.Some? && exists i: nat :: OccursAt(tmux.value, h.socketName, i)
  {
    tmux.Some? && Contains(tmux.value, h.socketName)
  }

  /** `session_exists`: one `has-session` probe; a tmux that cannot be spawned
      reads as a missing session, never as an error. */
  function SessionExists(h: TmuxSession, status: Status): (r: Step<bool>)
    ensures r.calls == [HasSession(h.socketName, h.sessionName)]
    ensures r.result.Ok?
    ensures r.result.value <==> status == Exited(Some(0))
  {
    Step([HasSession(h.socketName, h.sessionName)], Ok(Success(status)))
  }

  /** `detach`: fails only when tmux cannot be spawned; its exit status is ignored. */
  function Detach(h: TmuxSession, status: Status): (r: Step<()>)
    ensures r.calls == [DetachClient(h.socketName)]
    ensures r.result.Ok? <==> status.Exited?
    ensures r.result.Err? ==> r.result.message == DetachFailed
  {
    if status.SpawnFailed? then
      Step([DetachClient(h.socketName)], Err(DetachFailed))
    else
      Step([DetachClient(h.socketName)], Ok(()))
  }

  /** `create_session`: `new-session`, then `set-option status off`; each
      aborts the run only when tmux cannot be spawned. */
  function CreateSession(h: TmuxSession, command: Option<string>, newStatus: Status, setStatus: Status): (r: Step<()>)
    ensures 1 <= |r.calls| <= 2 && r.calls[0] == NewSession(h.socketName, h.sessionName, command)
    ensures |r.calls| == 2 <==> newStatus.Exited?
    ensures |r.calls| == 2 ==> r.calls[1] == StatusOff(h.socketName, h.sessionName)
    ensures r.result.Ok? <==> newStatus.Exited? && setStatus.Exited?
    ensures newStatus.SpawnFailed? ==> r.result == Err(CreateFailed)
    ensures newStatus.Exited? && setStatus.SpawnFailed? ==> r.result == Err(StatusOffFailed)
  {
    var create := NewSession(h.socketName, h.sessionName, command);
    if newStatus.SpawnFailed? then
      Step([create], Err(CreateFailed))
    else
      var statusOff := StatusOff(h.socketName, h.sessionName);
      if setStatus.SpawnFailed? then
        Step([create, statusOff], Err(StatusOffFailed))
      else
        Step([create, statusOff], Ok(()))
  }

  /** The shell command the popup runs: a nested client attaching to the
      session on the popup's own socket. */
  function AttachBody(h: TmuxSession): (r: string)
    ensures |r| == |"tmux -L "| + |h.socketName| + |" attach -t \""| + |h.sessionName| + 1
    ensures r[..|"tmux -L "| + |h.socketName|] == "tmux -L " + h.socketName
    ensures r[|"tmux -L "| + |h.socketName|..|r| - |h.sessionName| - 1] == " attach -t \""
    ensures r[|r| - |h.sessionName| - 1..] == h.sessionName + "\""
  {
    "tmux -L " + h.socketName + " attach -t \"" + h.sessionName + "\""
  }

  /** `show_popup`: the popup blocks until closed; its exit code, or 1 when a
      signal ended it, becomes the process exit code. */
  function ShowPopup(h: TmuxSession, status: Status): (r: Step<ExitStatusCode>)
    ensures r.calls == [Popup(AttachBody(h))]
    ensures r.result.Ok? <==> status.Exited?
    ensures r.result.Err? ==> r.result.message == PopupFailed
    ensures r.result.Ok? ==> r.result.value == (if status.code.Some? then status.code.value else 1)
    ensures r.result.Ok? ==> (r.result.value == 0 <==> Success(status))
  {
    match status
    case SpawnFailed => Step([Popup(AttachBody(h))], Err(PopupFailed))
    case Exited(code) => Step([Popup(AttachBody(h))], Ok(if code.Some? then code.value else 1))
  }

  /** Every call sequence a run issues for identity `h` is a prefix of one of these. */
  function DetachPlan(h: TmuxSession): seq<Call>
  {
    [DisplayParent, DetachClient(h.socketName)]
  }

  function CreatePlan(h: TmuxSession, command: Option<string>): seq<Call>
  {
    [DisplayParent, HasSession(h.socketName, h.sessionName), NewSession(h.socketName, h.sessionName, command),
     StatusOff(h.socketName, h.sessionName), Popup(AttachBody(h))]
  }

  function ShowPlan(h: TmuxSession): seq<Call>
  {
    [DisplayParent, HasSession(h.socketName, h.sessionName), Popup(AttachBody(h))]
  }

  predicate FollowsPlan(calls: seq<Call>, h: TmuxSession, command: Option<string>)
  {
    calls <= DetachPlan(h) || calls <= CreatePlan(h, command) || calls <= ShowPlan(h)
  }

  /** `main`: derive the identity; detach and exit 0 when attached; otherwise
      create the session if it is missing, then show the popup. */
  function Main(command: Option<string>, env: Env): (r: Run)
    ensures env.tmux.None? ==> r.calls == []
    ensures env.tmux.Some? && env.parentName.None? ==> r == Run([DisplayParent], Fatal(ParentQueryFailed))
    ensures env.tmux.Some? && env.parentName.Some? ==>
              FollowsPlan(r.calls, Identify(env.parentName.value, command), command)
    ensures r.outcome.Exit? ==>
              && env.tmux.Some? && env.parentName.Some?
              && var h := Identify(env.parentName.value, command);
                 r.calls in {DetachPlan(h), CreatePlan(h, command), ShowPlan(h)}
  {
    var made := New(command, env);
    match made.result
    case Err(message) => Run(made.calls, Fatal(message))
    case Ok(h) =>
      assert made.calls == [DisplayParent] && h == Identify(env.parentName.value, command);
      if IsAttached(h, env.tmux) then
        var detach := Detach(h, env.detachStatus);
        assert made.calls + detach.calls == DetachPlan(h);
        Run(made.calls + detach.calls, if detach.result.Err? then Fatal(detach.result.message) else Exit(0))
      else
        var probe := SessionExists(h, env.hasSessionStatus);
        var create :=
          if probe.result.value then Step([], Ok(()))
          else CreateSession(h, command, env.newSessionStatus, env.setOptionStatus);
        var before := made.calls + probe.calls + create.calls;
        if create.result.Err? then
          Run(before, Fatal(create.result.message))
        else
          var show := ShowPopup(h, env.popupStatus);
          assert before + show.calls == if probe.result.value then ShowPlan(h) else CreatePlan(h, command);
          Run(before + show.calls, if show.result.Err? then Fatal(show.result.message) else Exit(show.result.value))
  }

  /** Outside tmux the run fails with exit status 1 before any tmux call. */
  lemma NoTmuxNoCalls(command: Option<string>, env: Env)
    requires env.tmux.None?
    ensures Main(command, env) == Run([], Fatal(NotInTmux))
    ensures ExitCode(Main(command, env).outcome) == 1
  {
  }

  /** When attached, the only action is `detach-client` on the popup's socket,
      and the run exits 0 whatever detach-client's own status was. */
  lemma AttachedOnlyDetaches(command: Option<string>, env: Env)
    requires env.tmux.Some? && env.parentName.Some?
    requires IsAttached(Identify(env.parentName.value, command), env.tmux)
    ensures Main(command, env).calls == DetachPlan(Identify(env.parentName.value, command))
    ensures env.detachStatus.Exited? ==> Main(command, env).outcome == Exit(0)
    ensures env.detachStatus.SpawnFailed? ==> Main(command, env).outcome == Fatal(DetachFailed)
  {
  }

  /** A missing session is created, its status line turned off, then shown:
      each once, in that order; the popup's code (or 1) is the exit status,
      and a popup that cannot be spawned ends the run with its error. */
  lemma MissingSessionCreatesThenShows(command: Option<string>, env: Env)
    requires env.tmux.Some? && env.parentName.Some?
    requires !IsAttached(Identify(env.parentName.value, command), env.tmux)
    requires !Success(env.hasSessionStatus)
    requires env.newSessionStatus.Exited? && env.setOptionStatus.Exited?
    ensures Main(command, env).calls == CreatePlan(Identify(env.parentName.value, command), command)
    ensures env.popupStatus.Exited? ==>
              Main(command, env).outcome == Exit(if env.popupStatus.code.Some? then env.popupStatus.code.value else 1)
    ensures env.popupStatus.SpawnFailed? ==> Main(command, env).outcome == Fatal(PopupFailed)
  {
  }

  /** An existing session is only shown; the popup's code (or 1) is the exit status. */
  lemma ExistingSessionOnlyShows(command: Option<string>, env: Env)
    requires env.tmux.Some? && env.parentName.Some?
    requires !IsAttached(Identify(env.parentName.value, command), env.tmux)
    requires Success(env.hasSessionStatus)
    ensures Main(command, env).calls == ShowPlan(Identify(env.parentName.value, command))
    ensures env.popupStatus.Exited? ==>
              Main(command, env).outcome == Exit(if env.popupStatus.code.Some? then env.popupStatus.code.value else 1)
    ensures env.popupStatus.SpawnFailed? <==> Main(command, env).outcome == Fatal(PopupFailed)
  {
  }

  /** A failed creation step ends the run before the popup is shown, with
      that step's own message; `set-option` is skipped when `new-session`
      could not be spawned. */
  lemma CreateFailureSkipsPopup(command: Option<string>, env: Env)
    requires env.tmux.Some? && env.parentName.Some?
    requires !IsAttached(Identify(env.parentName.value, command), env.tmux)
    requires !Success(env.hasSessionStatus)
    requires env.newSessionStatus.SpawnFailed? || env.setOptionStatus.SpawnFailed?
    ensures forall c :: c in Main(command, env).calls ==> !c.Popup?
    ensures Main(command, env).outcome.Fatal?
    ensures env.newSessionStatus.SpawnFailed? ==>
              Main(command, env) == Run(CreatePlan(Identify(env.parentName.value, command), command)[..3], Fatal(CreateFailed))
    ensures env.newSessionStatus.Exited? && env.setOptionStatus.SpawnFailed? ==>
              Main(command, env) == Run(CreatePlan(Identify(env.parentName.value, command), command)[..4], Fatal(StatusOffFailed))
  {
  }

  /** The process exits 0 exactly when it detached, or when the popup was
      reached (the session existed or was created) and exited with 0. */
  lemma ExitZeroIff(command: Option<string>, env: Env)
    ensures ExitCode(Main(command, env).outcome) == 0 <==>
              && env.tmux.Some? && env.parentName.Some?
              && var h := Identify(env.parentName.value, command);
                 if IsAttached(h, env.tmux) then env.detachStatus.Exited?
                 else
                   && (Success(env.hasSessionStatus) || (env.newSessionStatus.Exited? && env.setOptionStatus.Exited?))
                   && Success(env.popupStatus)
  {
  }

  /** The attach test is a substring test, so inside any command popup of a
      parent the no-command popup of that parent also reads as attached. */
  lemma CommandPopupLooksAttachedToPlain(parentName: string, cmd: string, tmux: string)
    requires IsAttached(Identify(parentName, Some(cmd)), Some(tmux))
    ensures IsAttached(Identify(parentName, None), Some(tmux))
  {
    var plain := Identify(parentName, None).socketName;
    var withCommand := Identify(parentName, Some(cmd)).socketName;
    assert withCommand == plain + ("-" + cmd);
    ContainsPrefix(plain, "-" + cmd);
    ContainsTransitive(tmux, withCommand, plain);
  }

  /** Parent `work`, command `htop`, session missing: the toggle creates the
      session and shows it. */
  lemma WorkFirstToggle(tmuxOutside: string, env: Env)
    requires env.tmux == Some(tmuxOutside) && env.parentName == Some("work")
    requires !Contains(tmuxOutside, "popup-session-work-htop")
    requires env.hasSessionStatus == Exited(Some(1))
    requires env.newSessionStatus.Exited? && env.setOptionStatus.Exited?
    ensures Main(Some("htop"), env).calls ==
              [DisplayParent,
               HasSession("popup-session-work-htop", "work_htop_popup"),
               NewSession("popup-session-work-htop", "work_htop_popup", Some("htop")),
               StatusOff("popup-session-work-htop", "work_htop_popup"),
               Popup("tmux -L " + "popup-session-work-htop" + " attach -t \"" + "work_htop_popup" + "\"")]
  {
    WorkExamples();
    MissingSessionCreatesThenShows(Some("htop"), env);
  }

  /** Parent `work`, command `htop`, toggled from inside its popup: the run
      detaches and exits 0. */
  lemma WorkSecondToggle(tmuxInside: string, env: Env)
    requires env.tmux == Some(tmuxInside) && env.parentName == Some("work")
    requires Contains(tmuxInside, "popup-session-work-htop")
    requires env.detachStatus.Exited?
    ensures Main(Some("htop"), env).calls == [DisplayParent, DetachClient("popup-session-work-htop")]
    ensures Main(Some("htop"), env).outcome == Exit(0)
  {
    WorkExamples();
    AttachedOnlyDetaches(Some("htop"), env);
  }
}
