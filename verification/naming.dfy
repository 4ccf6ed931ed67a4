/** Identity derivation: the sanitised parent session name and the
    deterministic (socket, session) pair of `TmuxSession::new`
    (src/main.rs:34-56). */
module Naming {
  import opened Common

  /** Stand-in for Rust's `char::is_alphanumeric`, restricted to ASCII
      letters and digits. */
  predicate IsAlnum(c: char)
  {
    ('a' <= c <= 'z') || ('A' <= c <= 'Z') || ('0' <= c <= '9')
  }

  /** The characters sanitisation keeps. */
  predicate Allowed(c: char)
  {
    IsAlnum(c) || c == '-' || c == '_'
  }

  predicate IsSanitized(s: string)
  {
    forall i :: 0 <= i < |s| ==> Allowed(s[i])
  }

  /** Replaces every character outside letters, digits, `-` and `_` by `_`,
      character by character. */
  function Sanitize(s: string): (r: string)
    ensures |r| == |s|
    ensures IsSanitized(r)
    ensures forall i :: 0 <= i < |s| && Allowed(s[i]) ==> r[i] == s[i]
    ensures forall i :: 0 <= i < |s| && !Allowed(s[i]) ==> r[i] == '_'
  {
    seq(|s|, i requires 0 <= i < |s| => if Allowed(s[i]) then s[i] else '_')
  }

  /** The sanitised strings are exactly the fixpoints of `Sanitize`. */
  lemma SanitizeFixpoint(s: string)
    ensures Sanitize(s) == s <==> IsSanitized(s)
  {
  }

  /** Sanitising twice is sanitising once. */
  lemma SanitizeIdempotent(s: string)
    ensures Sanitize(Sanitize(s)) == Sanitize(s)
  {
  }

  /** Parent names that differ only in replaced characters share one identity. */
  lemma SanitizeMerges()
    ensures "my work" != "my_work" && Sanitize("my work") == Sanitize("my_work")
  {
  }

  const Prefix: string := "popup-session"
  const Suffix: string := "_popup"

  /** The target of one popup: a tmux server socket and a session on it. */
  datatype TmuxSession = TmuxSession(socketName: string, sessionName: string)

  /** Session name for a sanitised parent: `<parent>_<cmd>_popup` or `<parent>_popup`. */
  function SessionName(parent: string, command: Option<string>): (r: string)
    ensures |r| == |parent| + |Suffix| + (if command.Some? then |command.value| + 1 else 0)
    ensures r[..|parent|] == parent
    ensures r[|r| - |Suffix|..] == Suffix
    ensures command.Some? ==> r[|parent|] == '_' && r[|parent| + 1..|r| - |Suffix|] == command.value
  {
    match command
    case Some(cmd) => parent + "_" + cmd + Suffix
    case None => parent + Suffix
  }

  /** Socket name for a sanitised parent: `popup-session-<parent>-<cmd>` or `popup-session-<parent>`. */
  function SocketName(parent: string, command: Option<string>): (r: string)
    ensures |r| == |Prefix| + 1 + |parent| + (if command.Some? then |command.value| + 1 else 0)
    ensures r[..|Prefix| + 1 + |parent|] == Prefix + "-" + parent
    ensures command.Some? ==> r[|Prefix| + 1 + |parent|] == '-' && r[|Prefix| + 2 + |parent|..] == command.value
  {
    match command
    case Some(cmd) => Prefix + "-" + parent + "-" + cmd
    case None => Prefix + "-" + parent
  }

  /** Reads back the command a socket name was built for, given the parent;
      None when `socket` is not a socket name of that parent. */
  function SocketCommand(parent: string, socket: string): (r: Option<Option<string>>)
    ensures r.Some? ==> SocketName(parent, r.value) == socket
  {
    var base := Prefix + "-" + parent;
    if socket == base then
      Some(None)
    else if |base| < |socket| && socket[..|base| + 1] == base + "-" then
      assert socket == base + "-" + socket[|base| + 1..];
      Some(Some(socket[|base| + 1..]))
    else
      None
  }

  /** Reads back the command a session name was built for, given the parent;
      None when `session` is not a session name of that parent. */
  function SessionCommand(parent: string, session: string): (r: Option<Option<string>>)
    ensures r.Some? ==> SessionName(parent, r.value) == session
  {
    if session == parent + Suffix then
      Some(None)
    else if |parent| + 1 + |Suffix| <= |session|
         && session[..|parent| + 1] == parent + "_"
         && session[|session| - |Suffix|..] == Suffix then
      var cmd := session[|parent| + 1..|session| - |Suffix|];
      assert session == parent + "_" + cmd + Suffix;
      Some(Some(cmd))
    else
      None
  }

  lemma SocketRoundTrip(parent: string, command: Option<string>)
    ensures SocketCommand(parent, SocketName(parent, command)) == Some(command)
  {
  }

  lemma SessionRoundTrip(parent: string, command: Option<string>)
    ensures SessionCommand(parent, SessionName(parent, command)) == Some(command)
  {
  }

  /** The popup identity of `TmuxSession::new` for a parent session name
      (as tmux reported it) and an optional command. */
  function Identify(parentName: string, command: Option<string>): (h: TmuxSession)
    ensures SocketCommand(Sanitize(parentName), h.socketName) == Some(command)
    ensures SessionCommand(Sanitize(parentName), h.sessionName) == Some(command)
  {
    var parent := Sanitize(parentName);
    SocketRoundTrip(parent, command);
    SessionRoundTrip(parent, command);
    TmuxSession(SocketName(parent, command), SessionName(parent, command))
  }

  /** For one parent, distinct commands, and no command against any command,
      give distinct sockets and distinct sessions. */
  lemma DistinctCommandsDistinctNames(parent: string, c1: Option<string>, c2: Option<string>)
    requires c1 != c2
    ensures SocketName(parent, c1) != SocketName(parent, c2)
    ensures SessionName(parent, c1) != SessionName(parent, c2)
  {
    SocketRoundTrip(parent, c1);
    SocketRoundTrip(parent, c2);
    SessionRoundTrip(parent, c1);
    SessionRoundTrip(parent, c2);
  }

  /** The (socket, session) pair determines the sanitised parent and the command:
      a socket name alone can be shared, but its session name then differs. */
  lemma IdentifyInjective(p1: string, c1: Option<string>, p2: string, c2: Option<string>)
    requires Identify(p1, c1) == Identify(p2, c2)
    ensures Sanitize(p1) == Sanitize(p2) && c1 == c2
  {
  }

  /** Socket names alone are not unique across parents. */
  lemma SocketsCollideAcrossParents()
    ensures Identify("a", Some("b-c")).socketName == Identify("a-b", Some("c")).socketName
    ensures Identify("a", Some("b-c")).sessionName != Identify("a-b", Some("c")).sessionName
  {
    assert Sanitize("a") == "a";
    assert Sanitize("a-b") == "a-b";
    assert Identify("a", Some("b-c")).sessionName[1] == '_';
    assert Identify("a-b", Some("c")).sessionName[1] == '-';
  }

  /** Parent `work`, with and without the command `htop`. */
  lemma WorkExamples()
    ensures Identify("work", None) == TmuxSession("popup-session-work", "work_popup")
    ensures Identify("work", Some("htop")) == TmuxSession("popup-session-work-htop", "work_htop_popup")
  {
  }
}
