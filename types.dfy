/** The closed tag sets and record shapes shared by the session manager, the
    wire protocol and the remote touch engine. */
module Types {

  datatype Option<T> = None | Some(value: T) {
    /** The value, or `default` when absent (Python's `dict.get(k, default)`,
        JavaScript's `??`). */
    function GetOr(default: T): T {
      if Some? then value else default
    }
  }

  /** The six command tags of the protocol. */
  datatype CommandType = Init | Tap | Swipe | LongPress | DoubleTap | Shutdown

  /** The tag as it travels in the `type` field of a command. */
  function CommandTypeName(t: CommandType): string {
    match t
    case Init => "init"
    case Tap => "tap"
    case Swipe => "swipe"
    case LongPress => "long_press"
    case DoubleTap => "double_tap"
    case Shutdown => "shutdown"
  }

  /** Reads a `type` string back into a tag; every other string is unknown. */
  function ParseCommandType(s: string): (r: Option<CommandType>)
    ensures r.Some? ==> CommandTypeName(r.value) == s
    ensures r.None? <==> s !in {"init", "tap", "swipe", "long_press", "double_tap", "shutdown"}
  {
    if s == "init" then Some(Init)
    else if s == "tap" then Some(Tap)
    else if s == "swipe" then Some(Swipe)
    else if s == "long_press" then Some(LongPress)
    else if s == "double_tap" then Some(DoubleTap)
    else if s == "shutdown" then Some(Shutdown)
    else None
  }

  lemma CommandTypeRoundTrip(t: CommandType)
    ensures ParseCommandType(CommandTypeName(t)) == Some(t)
  {
  }

  /** Two distinct tags never share a name. */
  lemma CommandTypeNameInjective(t: CommandType, u: CommandType)
    ensures CommandTypeName(t) == CommandTypeName(u) ==> t == u
  {
    CommandTypeRoundTrip(t);
    CommandTypeRoundTrip(u);
  }

  /** A response status. */
  datatype Status = Ok | Error | Ready

  function StatusName(s: Status): string {
    match s
    case Ok => "ok"
    case Error => "error"
    case Ready => "ready"
  }

  function ParseStatus(s: string): (r: Option<Status>)
    ensures r.Some? ==> StatusName(r.value) == s
    ensures r.None? <==> s !in {"ok", "error", "ready"}
  {
    if s == "ok" then Some(Ok)
    else if s == "error" then Some(Error)
    else if s == "ready" then Some(Ready)
    else None
  }

  /** The optional fields of a command; which ones a command carries is not
      fixed by its type. */
  datatype CommandArgs = CommandArgs(
    x: Option<int>,
    y: Option<int>,
    x2: Option<int>,
    y2: Option<int>,
    durationMs: Option<int>,
    steps: Option<int>,
    screenWidth: Option<int>,
    screenHeight: Option<int>)

  const NO_ARGS := CommandArgs(None, None, None, None, None, None, None, None)

  /** A request sent to the engine. */
  datatype DaemonCommand = DaemonCommand(id: string, kind: CommandType, args: CommandArgs)

  /** A reply from the engine; `message` is absent unless the engine gave one. */
  datatype DaemonResponse = DaemonResponse(id: string, status: Status, message: Option<string>)

  /** Connection parameters of one remote device. The screen size is absent
      when neither the caller nor the environment gave one. */
  datatype SessionConfig = SessionConfig(
    host: string,
    user: string,
    port: int,
    sshKey: Option<string>,
    screenWidth: Option<int>,
    screenHeight: Option<int>,
    useSudo: bool)

  /** The spawned ssh process as the manager sees it: whether the session
      still holds it, whether its stdin accepts writes, the commands written
      to it in order (each goes over the pipe as one line, the command's JSON
      text and a newline), and whether stdin was ended and SIGTERM sent. */
  datatype Proc = Proc(present: bool, writable: bool, written: seq<DaemonCommand>, ended: bool, killed: bool)

  /** A session: the process may be absent, and `pending` is the single slot
      for the one outstanding request (a request number), or empty. */
  datatype TouchSession = TouchSession(
    id: string,
    config: SessionConfig,
    process: Proc,
    active: bool,
    pending: Option<nat>)
}
