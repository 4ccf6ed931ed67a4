# tmux-popr in Dafny

tmux-popr is a one-keystroke show/hide toggle for a popup terminal inside
tmux. On each run it does the following:

1. It derives a deterministic identity from the current (parent) session name
   and an optional command. The identity is a private tmux server socket plus
   a session on that socket.
2. If the current client is already inside that popup, it detaches the client
   and exits 0.
3. Otherwise it creates the background session if it is missing, turns that
   session's status line off, and shows the session in a 95% × 95% centred
   popup. The process then exits with the popup's own status.

This project models that logic as pure functions.

- `Common` holds `Option` and `Result`. An error in `Result` carries the
  context message the Rust code attaches to it.
- `Text` defines `Contains`, the substring test behind `is_attached`. It is
  proved equal to "there is an index where the needle occurs".
- `Naming` sanitises the parent session name and builds the socket and
  session names. It also has the partner functions `SocketCommand` and
  `SessionCommand`, which read the command back from a name. With them the
  model proves round trips, distinctness per command, and that the
  (socket, session) pair is injective in the sanitised parent and the
  command. Socket names alone can collide across parents: `a` with `b-c` and
  `a-b` with `c` share one.
- `Host` lists the tmux invocations and their exact argument vectors. The
  program is always `tmux`. `ParseArgv` reads a call back from its vector,
  which shows that no two calls share one.
- `Toggle` models `TmuxSession::new`, `is_attached`, `session_exists`,
  `detach`, `create_session`, `show_popup` and `main`.
  - The environment is one `Env` value: the `TMUX` variable, the parent name
    tmux reports, and the status of each tmux call.
  - A run returns the ordered list of calls it issued and how the process
    ends.
  - Every run follows one of three plans: detach, create-then-show, or show.

`create_session` aborts only when tmux cannot be spawned (`status()`
returns `Err`). A non-zero exit status from `new-session` or `set-option` is
ignored (src/main.rs:100-111). `CreateSession` models exactly this: it fails
only on `SpawnFailed`.

A consequence of the substring-based attach test, proved as
`Toggle.CommandPopupLooksAttachedToPlain`: the no-command socket of a parent
is a prefix of every command socket of that parent. So wherever `TMUX`
mentions a command popup's socket, the no-command popup also reads as
attached.

## Model

| member | source | states |
|---|---|---|
| Text.Contains | src/main.rs:61 | `str::contains`: true exactly when the needle occurs at some index of the haystack |
| Naming.Sanitize | src/main.rs:34-38 | keeps the length; every output character is a letter, digit, `-` or `_`; allowed characters stay in place, every other one becomes `_` |
| Naming.SanitizeFixpoint | src/main.rs:35-38 | a string is left unchanged by sanitisation exactly when it is already sanitised |
| Naming.SanitizeIdempotent | src/main.rs:35-38 | sanitising a sanitised name returns it unchanged |
| Naming.SanitizeMerges | src/main.rs:35-38 | distinct parent names (`my work`, `my_work`) can sanitise to the same name and so share popups |
| Naming.SessionName | src/main.rs:43-46 | the session name starts with the sanitised parent and ends with `_popup`; with a command, `_` and the command sit between them |
| Naming.SocketName | src/main.rs:48-51 | the socket name starts with `popup-session-` and the sanitised parent; with a command, `-` and the command follow |
| Naming.SocketCommand | src/main.rs:48-51 | whatever command it reads back from a socket name rebuilds exactly that socket name with `popup-session` as the prefix |
| Naming.SessionCommand | src/main.rs:43-46 | whatever command it reads back from a session name rebuilds exactly that session name with `_popup` as the suffix |
| Naming.SocketRoundTrip | src/main.rs:48-51 | the command (or its absence) is recovered from `popup-session-<parent>[-<cmd>]` |
| Naming.SessionRoundTrip | src/main.rs:43-46 | the command (or its absence) is recovered from `<parent>[_<cmd>]_popup` |
| Naming.Identify | src/main.rs:40-56 | the derived socket and session names both encode the sanitised parent and the given command, recoverably |
| Naming.DistinctCommandsDistinctNames | src/main.rs:43-51 | for one parent, distinct commands, and no command against any command, give distinct sockets and distinct sessions |
| Naming.IdentifyInjective | src/main.rs:40-56 | equal (socket, session) pairs come from the same sanitised parent and the same command |
| Naming.SocketsCollideAcrossParents | src/main.rs:48-51 | parent `a` with `b-c` and parent `a-b` with `c` share a socket name but not a session name |
| Naming.WorkExamples | src/main.rs:40-51 | parent `work` gives `popup-session-work`/`work_popup`, and with `htop` gives `popup-session-work-htop`/`work_htop_popup` |
| Host.Success | src/main.rs:83 | a success is always a process that ran and exited with a code; a spawn failure or a signal never succeeds |
| Host.Argv | src/main.rs:25-128 | every call except `display-message` and `popup` starts with `-L <socket>` followed by its subcommand (`detach-client`, `has-session`, `new-session -d -s`, `set-option`); `has-session` and `set-option` target the session with `-t`, and `set-option` ends `status off`; `new-session` has six arguments plus the command last only when present; the popup vector is the fixed popup flags followed by the body |
| Host.ParseArgv | src/main.rs:67-128 | a vector it accepts is exactly the argument vector of the call it returns |
| Host.ArgvRoundTrip | src/main.rs:67-128 | each call's argument vector (`detach-client`, `has-session`, `new-session` with the optional command last, `set-option … status off`, `popup … -E <body>`) reads back as that call |
| Toggle.New | src/main.rs:19-57 | outside tmux it fails with "Not running inside a tmux session" and issues no call; otherwise it issues `display-message` only, fails with "Failed to get parent session name" when that cannot be spawned, and otherwise succeeds with names that encode the command |
| Toggle.IsAttached | src/main.rs:59-65 | true exactly when `TMUX` is set and the socket name occurs in it |
| Toggle.SessionExists | src/main.rs:75-85 | one `has-session` call; never an error; true exactly when tmux ran and exited 0, so a spawn failure reads as missing |
| Toggle.Detach | src/main.rs:67-73 | one `detach-client` on the popup socket; fails only when tmux cannot be spawned, whatever its exit status |
| Toggle.CreateSession | src/main.rs:87-114 | `new-session` with the command, then `set-option status off` only if the first spawned; succeeds exactly when both spawned, with the step-specific message otherwise |
| Toggle.AttachBody | src/main.rs:124-127 | the popup body is exactly `tmux -L <socket>`, then ` attach -t "`, then the session name and a closing `"` |
| Toggle.ShowPopup | src/main.rs:116-133 | one popup call attaching to the session; the exit code is the popup's code, or 1 when none; it is 0 exactly when the popup succeeded; a spawn failure is "Failed to show popup" |
| Toggle.ExitCode | src/main.rs:136-151 | an error returned from `main` never exits with 0; status 0 only comes from an explicit `exit(0)` |
| Toggle.Main | src/main.rs:136-151 | no call outside tmux; when the parent query cannot be spawned, exactly `display-message` and then "Failed to get parent session name"; otherwise the calls are always a prefix of the detach, create-then-show or show plan; a run that exits issued one whole plan |
| Toggle.NoTmuxNoCalls | src/main.rs:20-23 | with `TMUX` unset the run issues nothing and ends with the not-inside-tmux error and exit status 1 |
| Toggle.AttachedOnlyDetaches | src/main.rs:140-143 | when attached the calls are `display-message` then `detach-client` only, and the exit is 0 unless detach could not be spawned |
| Toggle.MissingSessionCreatesThenShows | src/main.rs:145-149 | a missing session gives `has-session`, `new-session`, `set-option`, `popup`, each once in that order; the exit status is the popup's code (or 1), or the popup error when it cannot be spawned |
| Toggle.ExistingSessionOnlyShows | src/main.rs:145-149 | an existing session gives `has-session` then `popup` only; the exit status is the popup's code (or 1); the run fails exactly when the popup cannot be spawned |
| Toggle.CreateFailureSkipsPopup | src/main.rs:100-111 | if `new-session` cannot be spawned, the run stops after it with "Failed to create session" and no `set-option`; if `set-option` cannot be spawned, it stops after it with "Failed to set status off"; either way no popup is issued |
| Toggle.ExitZeroIff | src/main.rs:136-151 | the exit status is 0 exactly when the run detached, or reached the popup and the popup exited 0 |
| Toggle.CommandPopupLooksAttachedToPlain | src/main.rs:59-65 | wherever `TMUX` shows a command popup of a parent as attached, it shows that parent's no-command popup as attached too |
| Toggle.WorkFirstToggle | src/main.rs:136-151 | parent `work`, command `htop`, no session yet: the five calls with their exact names and popup body |
| Toggle.WorkSecondToggle | src/main.rs:140-143 | the same toggle, with `TMUX` showing the popup socket and the parent query still reporting `work`, detaches and exits 0 |

## Left out

- Spawning processes, reading `TMUX` and calling `std::process::exit` are not performed. They are inputs (`Env`) and results (`Run`). Both reads of `TMUX` see one value.
- Argument parsing with clap (src/main.rs:5-11, 137) is not modelled. The optional command is a parameter.
- Decoding the `display-message` output (lossy UTF-8, then `trim`) is not modelled. The parent name is a given string. Its exit status is not checked by the code either.
- Naming.Sanitize: `is_alphanumeric` is restricted to ASCII letters and digits. Rust also keeps non-ASCII letters and digits (such as `é` or `٣`), which this model replaces with `_`.
- Toggle.Main: a `TMUX` value that is not valid Unicode makes `env::var` fail. The model folds that into "unset".
- Toggle.Main: the error chain that Rust prints to standard error is reduced to the context message. Exit codes are typed as one byte (0..255), the range `ExitStatus::code` reports on Unix, so `exit` never has to truncate them.
- Shell quoting, and command injection through the unsanitised command text in the names and in the popup body, are not modelled. The code does not handle them.
- Behaviour when two toggles run at once is not modelled. Neither is what tmux itself does, such as which `TMUX` value a shell inside the popup sees. `Toggle.WorkSecondToggle` takes that value as a hypothesis, and also that the parent query still reports `work`. If it reported the popup's own session (`work_htop_popup`), the derived socket would be `popup-session-work_htop_popup-htop` and the run would not detach.
