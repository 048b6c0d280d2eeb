# mcp-remotetouch in Dafny

mcp-remotetouch lets a client drive the touchscreen of a remote Linux
device. The MCP server (TypeScript) opens an ssh session per device. Over
it, the server starts a small Python engine that creates a virtual
multi-touch device through uinput, and exchanges newline-delimited JSON
commands and replies with it. This project models:

- the engine's command loop and gesture handlers, down to the input events
  written and the sleeps between them;
- the manager's session table, its single pending-request slot, timeouts and
  process callbacks;
- the JSON form of a command on the wire;
- the entry point's argument scan, configuration defaults and tool
  handlers.

Layout, one module per file:

| file | module | models |
|---|---|---|
| `types.dfy` | `Types` | command tags, statuses, commands, replies, configurations, sessions |
| `text.dfy` | `Text` | decimal printing of numbers, and JavaScript's `String.prototype.trim` |
| `wire.dfy` | `Wire` | `JSON.stringify` of a command, plus the newline |
| `multitouch.dfy` | `MultiTouch` | the event groups of the type-B multi-touch protocol, and a slot reader that interprets a stream of them |
| `gestures.dfy` | `Gestures` | the tracking-id counter, swipe interpolation, and each gesture handler's output |
| `touch_engine.dfy` | `TouchEngine` | the engine's `main` loop as pure functions, and the class `Engine`, whose methods update the globals in place |
| `session_manager.dfy` | `SessionManager` | the manager's callbacks as pure transitions, and the class `Manager`, which performs them |
| `cli.dfy` | `Cli` | `parseArgs`, `defaultConfig` and the tool handlers |

How the pieces are modelled:

- **The engine.** Each imperative source function is a method of
  `TouchEngine.Engine`. A method's contract ties the new state to a pure
  function of the old state: `Step` for one line, `Run` for a whole input.
  The properties are proved about those functions, and the gesture traces
  are checked against the independent slot reader in `MultiTouch`.
- **The manager.** Every asynchronous event is one atomic transition: a
  response line, stderr data, the process exiting or failing, a timer
  firing, or the code after an `await`. A promise is a numbered request:
  - `outcomes` records how each request settled;
  - `timers` holds its timer, which is still armed or not;
  - `waiters` says whether a suspended `connect` or `disconnect` is
    waiting on it.

  Every session object ever created stays in `heap`, because callbacks of a
  removed session still reach it. `order` holds the keys of the `sessions`
  map in insertion order. The well-formedness predicate `Valid` is proved
  kept by every transition.

## Model

| member | source | states |
|---|---|---|
| Types.ParseCommandType | src/types.ts:24-30 | a parsed tag's name is the string read; exactly the six tag names parse |
| Types.CommandTypeRoundTrip | src/types.ts:24-30 | reading a tag's name gives back the tag |
| Types.CommandTypeNameInjective | src/types.ts:24-30 | two different tags never share a name |
| Types.ParseStatus | src/types.ts:45-49 | exactly "ok", "error" and "ready" parse, and each gives back its name |
| Text.NatToString | src/ssh-touch-session.ts:131 | a natural number prints as a non-empty run of digits with no leading zero |
| Text.NatToStringRoundTrip | src/ssh-touch-session.ts:131 | reading the printed digits back gives the number |
| Text.IntToString | src/ssh-touch-session.ts:72 | the text starts with "-" exactly for a negative number; every other character is a digit |
| Text.TrimStart | src/ssh-touch-session.ts:72 | the result is a suffix of the input, everything removed is white space, and it does not start with white space |
| Text.TrimEnd | src/ssh-touch-session.ts:72 | the result is a prefix of the input, everything removed is white space, and it does not end with white space |
| Text.Trim | src/ssh-touch-session.ts:72 | the result is a slice of the input with white space at neither end, and only white space was cut |
| Text.TrimIdempotent | src/ssh-touch-session.ts:72 | trimming twice is trimming once |
| Wire.EscapeChar | src/ssh-touch-session.ts:146 | the escape of a character has no character below U+0020 (so no line break); a character at or above U+0020 other than `"` and `\` stands for itself |
| Wire.Escape | src/ssh-touch-session.ts:146 | an escaped string has no character below U+0020 (so no line break) and is at least as long as the original |
| Wire.Quote | src/ssh-touch-session.ts:146 | a JSON string literal has no character below U+0020, so no line break |
| Wire.Member | src/ssh-touch-session.ts:146 | an undefined field writes nothing; a present one writes a non-empty member with no character below U+0020 |
| Wire.Head | src/ssh-touch-session.ts:146 | the `id` and `type` members have no character below U+0020 |
| Wire.MemberList | src/types.ts:35-42 | the optional members together have no character below U+0020 |
| Wire.Members | src/types.ts:35-42 | the optional members of a command have no character below U+0020 |
| Wire.Serialize | src/ssh-touch-session.ts:146 | a command's JSON text is `{…}` with no character below U+0020, so no line break |
| Wire.LineIsOneLine | src/ssh-touch-session.ts:146-147 | the text written for a command ends in its only newline, so the engine's line reader sees exactly one message |
| MultiTouch.DownGroup | src/python-daemon.ts:55-60 | `touch_down` writes five events and ends with SYN_REPORT |
| MultiTouch.MoveGroup | src/python-daemon.ts:62-66 | `touch_move` writes four events and ends with SYN_REPORT |
| MultiTouch.UpGroup | src/python-daemon.ts:68-71 | `touch_up` writes three events and ends with SYN_REPORT |
| MultiTouch.GroupCounts | src/python-daemon.ts:55-71 | the three groups write 5, 4 and 3 events and never sleep |
| MultiTouch.ReadAppend | src/python-daemon.ts:46-50 | reading an event stream in two pieces is reading it whole |
| MultiTouch.ReadDown | src/python-daemon.ts:55-60 | a down group starts a contact on its slot with the tracking id and position, and publishes one frame holding it |
| MultiTouch.ReadMove | src/python-daemon.ts:62-66 | a move group moves the slot's contact, keeping its tracking id, and publishes one frame |
| MultiTouch.ReadUp | src/python-daemon.ts:68-71 | an up group (tracking id -1) releases the slot and publishes one frame without it |
| MultiTouch.ReadPause | src/python-daemon.ts:143 | a sleep neither changes the reader nor publishes a frame |
| Gestures.NextId | src/python-daemon.ts:130-135 | the id handed out lies in [0, 65536) and is one more than the counter, modulo 65536 |
| Gestures.IdAfterIsOffset | src/python-daemon.ts:130-135 | the n-th id after counter c is (c + n) mod 65536, so the first id after start-up is 1 |
| Gestures.IdsDistinctWithinWindow | src/python-daemon.ts:130-135 | ids handed out fewer than 65536 allocations apart differ |
| Gestures.TruncDivBounds | src/python-daemon.ts:152 | Python's `int(a / b)` rounds toward zero: the dropped remainder is smaller than b and has the sign of a |
| Gestures.TruncDivUnique | src/python-daemon.ts:152 | for non-negative a, the truncated quotient is the floor quotient |
| Gestures.TruncDivMonotone | src/python-daemon.ts:158-159 | the truncated quotient grows with the numerator |
| Gestures.DefaultSteps | src/python-daemon.ts:152 | the default step count is `max(int(duration / 15), 2)`: at least 2, and duration / 15 from 30 ms on |
| Gestures.InterpEnds | src/python-daemon.ts:156-159 | interpolation step 0 is the start point and step `steps` is the end point |
| Gestures.InterpFloor | src/python-daemon.ts:158-159 | for non-negative coordinates, interpolation step i is a + floor((b - a)·i / steps) |
| Gestures.InterpMonotone | src/python-daemon.ts:158-159 | interpolated coordinates never move back toward the start |
| Gestures.InterpAntitone | src/python-daemon.ts:158-159 | the same holds for coordinates that decrease |
| Gestures.InterpBetween | src/python-daemon.ts:156-159 | every interpolated point lies between the two end points |
| Gestures.InterpQuarterSteps | src/python-daemon.ts:156-161 | a four-step swipe from (0,0) to (100,100) passes through 25, 50, 75 and 100 |
| Gestures.PressTrace | src/python-daemon.ts:137-144 | a completed tap or long press publishes a contact on slot 0 at the point with a fresh id (replacing any there), then the earlier contacts less slot 0; it sleeps once, for the duration, and writes 8 events |
| Gestures.PressFailures | src/python-daemon.ts:137-144 | a missing x or y raises KeyError "'x'" or "'y'" before anything is written; a negative duration raises the sleep error and leaves the contact down |
| Gestures.SwipeTrace | src/python-daemon.ts:146-162 | a completed swipe publishes the down at the start, one frame per step at the interpolated points (the last at the end point), then the earlier contacts less slot 0; it sleeps duration/steps before each move |
| Gestures.SwipeDefaults | src/python-daemon.ts:151-152 | without duration and steps, a swipe takes 20 steps of 15 ms |
| Gestures.SwipeWithoutSteps | src/python-daemon.ts:155-162 | with a step count of zero or less, the swipe writes a down and an up and never sleeps |
| Gestures.DoubleTapTrace | src/python-daemon.ts:173-184 | a double tap publishes contact, release, contact with the next id, release, and sleeps 50, 100 and 50 ms |
| TouchEngine.Respond | src/python-daemon.ts:123-128 | a reply is appended to the replies and nothing else changes |
| TouchEngine.SilentLines | src/python-daemon.ts:190-197 | blank and non-JSON lines are skipped without a reply |
| TouchEngine.OneReplyPerCommand | src/python-daemon.ts:199-230 | every command line gets exactly one reply, with its id or "?"; only `shutdown` leaves the loop, and only a JSON value that is not an object crashes it |
| TouchEngine.NotInitializedGuard | src/python-daemon.ts:211-212 | before a successful init, every command other than init and shutdown is refused with "device not initialized, send init first" |
| TouchEngine.UnknownCommand | src/python-daemon.ts:225-226 | once initialised, a type outside the six is answered "unknown command: " followed by the type |
| TouchEngine.FailedInit | src/python-daemon.ts:227-230 | a failing setup leaves the descriptor, trace and counter alone and replies with the permission hint or `str(e)` |
| TouchEngine.SuccessfulInit | src/python-daemon.ts:203-207 | a successful init creates a device of the requested size (800 by 480 by default), makes it current and replies "ready" |
| TouchEngine.TapStep | src/python-daemon.ts:213-215 | a tap appends its trace and replies ok, or replies error with the exception's text |
| TouchEngine.MessageOnlyWhenGiven | src/python-daemon.ts:123-128 | a reply has no message exactly when a gesture completed |
| TouchEngine.StepValid | src/python-daemon.ts:130-135 | one line keeps the descriptor and the counter in range |
| TouchEngine.RunAppend | src/python-daemon.ts:189 | running two pieces of input runs the second from where the first stopped, unless the loop ended |
| TouchEngine.ShutdownEndsInput | src/python-daemon.ts:208-210 | nothing after a shutdown line is read |
| TouchEngine.RepliesFollowCommands | src/python-daemon.ts:186-230 | the replies of a run are one per command line read, in order, with their ids |
| TouchEngine.DescriptorIffInit | src/python-daemon.ts:231-237 | at the end there is a descriptor for `finally` to destroy exactly when some line read was a successful init (or one existed before) |
| TouchEngine.RunValid | src/python-daemon.ts:130-135 | every tracking id handed out during a run lies in [0, 65535] |
| TouchEngine.Engine.constructor | src/python-daemon.ts:130 | start-up: counter 0, no descriptor, nothing written |
| TouchEngine.Engine.NextTrackingId | src/python-daemon.ts:132-135 | advances the counter as `NextId` does and returns it |
| TouchEngine.Engine.WriteEvent | src/python-daemon.ts:46-50 | appends one event to the trace |
| TouchEngine.Engine.SynReport | src/python-daemon.ts:52-53 | appends SYN_REPORT |
| TouchEngine.Engine.TouchDown | src/python-daemon.ts:55-60 | appends the down group |
| TouchEngine.Engine.TouchMove | src/python-daemon.ts:62-66 | appends the move group |
| TouchEngine.Engine.TouchUp | src/python-daemon.ts:68-71 | appends the up group |
| TouchEngine.Engine.Sleep | src/python-daemon.ts:143 | a negative length raises the sleep error and writes nothing; otherwise it appends the pause |
| TouchEngine.Engine.HandlePress | src/python-daemon.ts:137-171 | the shared body of tap and long press produces exactly `PressGesture` |
| TouchEngine.Engine.HandleTap | src/python-daemon.ts:137-144 | `handle_tap` produces `PressGesture` with 50 ms by default |
| TouchEngine.Engine.HandleLongPress | src/python-daemon.ts:164-171 | `handle_long_press` produces `PressGesture` with 800 ms by default |
| TouchEngine.Engine.HandleSwipe | src/python-daemon.ts:146-162 | `handle_swipe` produces exactly `SwipeGesture` |
| TouchEngine.Engine.MoveThrough | src/python-daemon.ts:156-161 | the swipe loop writes the paced moves, or raises before the first move when the duration is negative |
| TouchEngine.Engine.HandleDoubleTap | src/python-daemon.ts:173-184 | `handle_double_tap` produces exactly `DoubleTapGesture` |
| TouchEngine.Engine.SendResponse | src/python-daemon.ts:123-128 | appends the reply |
| TouchEngine.Engine.SetupUinput | src/python-daemon.ts:73-121 | on success, a new device with the requested size and the 200 ms settle pause; on failure, the exception and no change |
| TouchEngine.Engine.Reply | src/python-daemon.ts:213-224 | replies ok after a completed gesture and error with its message otherwise |
| TouchEngine.Engine.HandleLine | src/python-daemon.ts:190-230 | one loop iteration changes the state exactly as `Step` does |
| TouchEngine.Engine.Serve | src/python-daemon.ts:186-237 | `main` changes the state exactly as `Run` does, then destroys the descriptor if there is one |
| SessionManager.EmptyValid | src/ssh-touch-session.ts:11 | the empty manager is well formed |
| SessionManager.Remove | src/ssh-touch-session.ts:102 | deleting a key removes it and keeps every other key |
| SessionManager.RemoveKeepsOrder | src/ssh-touch-session.ts:102 | deleting the key at position k of a map's key order leaves the keys before and after it, in order |
| SessionManager.RemoveFirst | src/ssh-touch-session.ts:203-206 | deleting the first key of the snapshot leaves the rest of it in order |
| SessionManager.Cleanup | src/ssh-touch-session.ts:173-188 | `cleanup` leaves the session inactive and without a process, ending stdin and sending SIGTERM when it had one |
| SessionManager.CleanupIdempotent | src/ssh-touch-session.ts:96-101 | cleaning up twice, as a failed handshake does, is cleaning up once |
| SessionManager.EvictValid | src/ssh-touch-session.ts:55-59 | settling through the slot empties it and keeps the state well formed |
| SessionManager.SendRaw | src/ssh-touch-session.ts:121-149 | a send gets the next request number |
| SessionManager.SendRawValid | src/ssh-touch-session.ts:121-149 | a send keeps the state well formed |
| SessionManager.SendRawEffect | src/ssh-touch-session.ts:121-149 | over a writable process, a send writes exactly the command, takes the slot and arms its timer; otherwise it is rejected with "SSH process stdin not writable" and the slot is untouched; other sessions never change |
| SessionManager.Send | src/ssh-touch-session.ts:110-119 | a send gets the next request number |
| SessionManager.SendGuards | src/ssh-touch-session.ts:110-119 | an unknown id is refused with "Session not found: ", an inactive or process-less session with "Session is not active: ", and nothing is written; a live session is sent the command under a 30000 ms timeout |
| SessionManager.SendValid | src/ssh-touch-session.ts:110-119 | `sendCommand` keeps the state well formed |
| SessionManager.LineEffect | src/ssh-touch-session.ts:48-60 | an unparseable line, or any line while the slot is empty, changes nothing; otherwise the request in the slot is resolved with the reply, whatever its id, and its timer is cleared |
| SessionManager.DeactivateValid | src/ssh-touch-session.ts:68 | marking a session inactive keeps the state well formed |
| SessionManager.CloseEffect | src/ssh-touch-session.ts:67-83 | exit and error make the session inactive and empty its slot, rejecting the occupant with "SSH process exited with code <code>. stderr: <trimmed stderr>", or with the error |
| SessionManager.TimeoutValid | src/ssh-touch-session.ts:128-133 | a timer firing keeps the state well formed |
| SessionManager.TimeoutEffect | src/ssh-touch-session.ts:128-133 | a cleared timer does nothing; a live one empties an occupied slot, whichever request holds it, and rejects its own request with "Command timed out after <ms>ms"; with the slot empty, its request stays unsettled |
| SessionManager.SettleOnce | src/ssh-touch-session.ts:55-83 | no callback settles a promise twice: every recorded outcome stays as it was |
| SessionManager.SlotTakeover | src/ssh-touch-session.ts:135-144 | a second send takes the slot; the first request stays unsettled with its timer armed |
| SessionManager.ConnectEffect | src/ssh-touch-session.ts:13-94 | during the handshake the new session is registered and inactive, its process has received only the init command ("init-" + id, with the configured screen size), and the slot holds that request under a 15000 ms timer |
| SessionManager.DropValid | src/ssh-touch-session.ts:101-102 | cleaning up a session and deleting it keeps the state well formed |
| SessionManager.FinishConnectEffect | src/ssh-touch-session.ts:93-107 | a reply other than "error" makes the session active; an error reply or a rejection removes the session, cleaned up, and fails with "Failed to connect to <host>: " followed by "Daemon init failed: <message>" or by the reason |
| SessionManager.HandshakeAccepted | src/ssh-touch-session.ts:99 | a successful handshake activates the session and keeps it registered |
| SessionManager.HandshakeRefused | src/ssh-touch-session.ts:95-104 | an error reply fails `connect` with "Daemon init failed: " and the message (or "undefined"), and the session is removed |
| SessionManager.HandshakeBroken | src/ssh-touch-session.ts:100-104 | a rejected handshake fails `connect` with its reason, and the session is removed |
| SessionManager.DisconnectEffect | src/ssh-touch-session.ts:151-171 | an unknown id does nothing; an active session with a process is sent "shutdown-" + id under a 5000 ms timer, or rejected at once if its stdin is closed; any other session is cleaned up and removed at once; other sessions never change |
| SessionManager.DisconnectDuringHandshake | src/ssh-touch-session.ts:151-171 | disconnecting a session still in its handshake removes it at once, as it is not active, and leaves the handshake request in its slot with `connect` awaiting it |
| SessionManager.LateReadyConnects | src/ssh-touch-session.ts:92-107 | a reply that is not an error, reaching a session already removed, still resolves the handshake, and `connect` succeeds though the id is no longer a key |
| SessionManager.FinishDisconnectEffect | src/ssh-touch-session.ts:164-170 | whatever the shutdown's fate, the session ends removed, inactive, with stdin ended and SIGTERM sent |
| SessionManager.Listing | src/ssh-touch-session.ts:194-200 | one entry per key, in insertion order |
| SessionManager.Lookup | src/ssh-touch-session.ts:190-192 | a session is found exactly when its id is a key of the map |
| SessionManager.Manager.constructor | src/ssh-touch-session.ts:11 | no sessions and no requests |
| SessionManager.Manager.CleanupSession | src/ssh-touch-session.ts:173-188 | updates that session to its `Cleanup` |
| SessionManager.Manager.SettleRequest | src/ssh-touch-session.ts:136-143 | clears the request's timer and records its outcome |
| SessionManager.Manager.EvictPending | src/ssh-touch-session.ts:55-59 | empties the slot and settles its occupant |
| SessionManager.Manager.SendCommandRaw | src/ssh-touch-session.ts:121-149 | changes the state exactly as `SendRaw` does |
| SessionManager.Manager.SendCommand | src/ssh-touch-session.ts:110-119 | changes the state exactly as `Send` does |
| SessionManager.Manager.HandleLine | src/ssh-touch-session.ts:48-60 | the `line` callback, as `OnLine` |
| SessionManager.Manager.HandleStderr | src/ssh-touch-session.ts:63-65 | appends the chunk to that session's stderr buffer |
| SessionManager.Manager.HandleClose | src/ssh-touch-session.ts:67-74 | the `close` callback, as `OnClose` |
| SessionManager.Manager.HandleError | src/ssh-touch-session.ts:76-83 | the `error` callback, as `OnError` |
| SessionManager.Manager.HandleStdinClosed | src/ssh-touch-session.ts:123 | stdin stops accepting writes |
| SessionManager.Manager.HandleTimeout | src/ssh-touch-session.ts:128-133 | the timer callback, as `OnTimeout` |
| SessionManager.Manager.StartConnect | src/ssh-touch-session.ts:13-94 | `connect` up to its `await`, as `Connect` |
| SessionManager.Manager.CompleteConnect | src/ssh-touch-session.ts:94-107 | `connect` after its `await`, as `FinishConnect`, including the double cleanup of an error reply |
| SessionManager.Manager.StartDisconnect | src/ssh-touch-session.ts:151-170 | `disconnect` up to its `await`, as `Disconnect` |
| SessionManager.Manager.CompleteDisconnect | src/ssh-touch-session.ts:164-170 | `disconnect` after its `await`, as `FinishDisconnect` |
| SessionManager.Manager.GetSession | src/ssh-touch-session.ts:190-192 | returns `Lookup` |
| SessionManager.Manager.ListSessions | src/ssh-touch-session.ts:194-200 | one entry per registered session, in insertion order, with host written "user@host:port" |
| SessionManager.Manager.DisconnectAll | src/ssh-touch-session.ts:202-207 | afterwards the map is empty; every session that was in it is inactive, without a process, and was written `shutdown` exactly when it was active with a writable process; every other session is unchanged |
| SessionManager.Manager.DisconnectOne | src/ssh-touch-session.ts:204-205 | one disconnect of the loop removes exactly that key, leaves the session inactive and without a process, adds `shutdown` to its stdin exactly when it was active with a writable process, and changes no other session |
| SessionManager.Manager.AwaitShutdown | src/ssh-touch-session.ts:163-170 | once the shutdown settles, the session is cleaned up and removed, and nothing more is written to it |
| SessionManager.Manager.Deliver | src/ssh-touch-session.ts:48-83 | a reply, an exit or the timer settles the shutdown request and touches no other session |
| Cli.ParseArgs | src/index.ts:235-251 | the scan from index 2 gives the options `Scan` describes |
| Cli.NoFlagsDefaults | src/index.ts:236-238 | without "--server", "--port" or "--host", the options are the defaults |
| Cli.ServerIffFlag | src/index.ts:241-242 | the server flag is set exactly when "--server" appears at a position the scan treats as a flag, never as the value of "--port" or "--host" |
| Cli.LastValueWins | src/index.ts:243-247 | the last "--port" or "--host" that the scan reads as a flag and that has a value decides the port or host; later flags without a value, or read as a value, do not count |
| Cli.TrailingFlagIgnored | src/index.ts:243-247 | appending a "--port" or "--host" that the scan reads as a flag leaves the scan's result unchanged |
| Cli.BareDefaults | src/index.ts:13-25 | with nothing given and an empty environment: host "", user "pi", port Number("22"), no key, no screen size, no sudo |
| Cli.OverridesIgnoreEnv | src/index.ts:13-25 | when every parameter is given, the environment does not matter |
| Cli.EnvironmentRules | src/index.ts:14-23 | sudo from the environment only for exactly "true"; an empty screen variable counts as unset; no host variable means host "" |
| Cli.HostRequired | src/index.ts:57-62 | `connect` is called exactly when the resolved host is non-empty, with the resolved configuration; otherwise the result is an error |
| Cli.ErrorIffFailure | src/index.ts:97-105 | a tool result is an error exactly when the promise was rejected or the reply's status is "error"; otherwise it is the success text |
| Cli.ListStartsWithFirst | src/index.ts:221-226 | no sessions gives "No active sessions."; otherwise the text starts with the first session's line |
| Cli.ListJoinsLines | src/index.ts:221-226 | one session lists as its line; each further session adds a newline and its line, so the text is the lines joined by newlines |
| Cli.ToolCommandsHaveTheirFields | src/index.ts:90-196 | every gesture command a tool builds reaches the matching handler with its coordinates (a swipe's x1, y1, x2, y2 as x, y, x2, y2), so no gesture fails with KeyError: for integer parameters, only a negative duration can fail a press or a stepped swipe, and a double tap never fails |
| Cli.ConnectReportText | src/index.ts:63-76 | `touch_connect` is an error exactly when `connect` failed or the session is no longer registered when it is read back; success gives "Connected. Session ID: " and the id, the host as user@host:port and the registered session's screen as WxH with "unknown" for an unset dimension; failure is "Connection failed: " and the message, or the TypeError of reading `config` of `undefined` |
| Cli.ConnectReportFromManager | src/index.ts:64-65 | read back from the manager, the report is a success exactly when `connect` succeeded and the id is still a key of the map |
| Cli.LateReadyReportsFailure | src/index.ts:63-76 | a session disconnected during its handshake, whose "ready" reply still arrives, makes `connect` succeed but `touch_connect` report "Connection failed: " and the lookup's TypeError |
| Cli.ConnectReportOpensWithId | src/index.ts:69 | a successful report's text opens with "Connected. Session ID: " and the session id |
| Cli.TapResult | src/index.ts:97-105 | an error exactly for a rejection or an `error` reply; success is "Tapped at (x, y)", an `error` reply "Tap failed: " and its message, a rejection "Error: " and its reason |
| Cli.SwipeResult | src/index.ts:132-140 | an error exactly for a rejection or an `error` reply; success is "Swiped from (x1, y1) to (x2, y2)", an `error` reply "Swipe failed: " and its message, a rejection "Error: " and its reason |
| Cli.LongPressResult | src/index.ts:161-169 | an error exactly for a rejection or an `error` reply; success is "Long pressed at (x, y) for <duration_ms, 800 when absent>ms", an `error` reply "Long press failed: " and its message, a rejection "Error: " and its reason |
| Cli.DoubleTapResult | src/index.ts:188-196 | an error exactly for a rejection or an `error` reply; success is "Double tapped at (x, y)", an `error` reply "Double tap failed: " and its message, a rejection "Error: " and its reason |
| Cli.DisconnectResult | src/index.ts:207-209 | `touch_disconnect` never reports an error, since `disconnect` never throws; the text is "Session ", the id, then " disconnected." |

Members whose contracts speak of `old` state (the class methods and the
constructors) say how each method changes its object. Their counterparts
among the pure functions carry the properties.

## Left out

- I/O:
  - the ioctl calls and the uinput structures;
  - timestamps of events;
  - the contents of `make_input_event`'s packing;
  - `os.write` failures.

  A failing `setup_uinput` is a parameter of each input line (`SetupOutcome`).
- `struct.error`, which `write_event` raises for coordinates outside the
  signed 32-bit range: coordinates are unbounded integers here.
- `TouchEngine.Engine.SetupUinput`: the 0.2 s settle sleep is the `Pause(200.0)`
  appended on success. The descriptor is a device index. Re-initialising
  does not destroy the previous device, and only the last descriptor is
  destroyed at the end, as in the source.
- `Gestures.Interp`: computed exactly in rationals. Python's floating-point
  `t = i / steps` can round differently by one unit when the exact
  coordinate is an integer; the swipe's sleep is also the exact quotient.
- `int(cmd['x'])` of a non-integer or non-numeric JSON value, and `cmd['x']`
  of a JSON `null`: the model's coordinates are integers or absent.
- Fractional `duration_ms` and `steps`. The tools' schemas accept any number
  for them, and `JSON.stringify` sends a fraction as one; the model's
  durations and step counts are integers. On the engine, a fractional
  `steps` makes `range(1, steps + 1)` raise TypeError after the down group,
  so the swipe fails with slot 0 still held; a fractional duration only
  sleeps for a fractional time. `Cli.ToolCommandsHaveTheirFields` speaks of
  integer parameters only.
- The engine's JSON parsing. An input line is already classified as blank,
  not JSON, a JSON value that is not an object, or an object with its
  `id`, `type` and numeric fields. The stderr message for invalid JSON is
  not modelled, and neither is a `type` that is not a string (once the
  device is open the engine answers with the error text of the failed
  string concatenation in its "unknown command: " reply, before that with
  "device not initialized"); the manager's commands always carry a string
  `type`. The Python side's `json.dumps` of a reply is the reply
  datatype itself.
- `Cli.Received`: states the fields the engine decodes from a command's
  line directly, instead of parsing `Wire.Serialize`'s text.
- ssh itself:
  - the argument list;
  - the base64-wrapped script;
  - `sudo`;
  - `StrictHostKeyChecking` and the other options;
  - `randomUUID`, whose freshness is the precondition `sid !in heap` of
    `Connect`.
- Concurrency:
  - The callbacks are atomic and arrive in any order the caller chooses.
  - `disconnectAll` delivers each shutdown's fate before the next
    disconnect starts. Callbacks of other sessions arriving meanwhile are
    not interleaved.
- `SessionManager.Manager.DisconnectAll`: the fate of each shutdown (a reply,
  an exit, or its timer) is a parameter. An exit modelled here carries an
  empty error text, so it is an exit code only.
- Closing stdin is an explicit event (`HandleStdinClosed`). `cleanup`
  clears it together with the process.
- `Number()` conversions of environment variables and argument strings are
  a parameter `num: string -> int`. The NaN it can produce is not modelled.
- `Date.now()` in command ids is a parameter `now`.
- MCP server wiring:
  - tool registration;
  - zod schemas;
  - the stdio and HTTP transports and their session map;
  - the signal handlers that call `disconnectAll`.

  The tool handlers' text results are modelled; the wiring is not.
- `SessionConfig.screenWidth`/`screenHeight` are optional here. The
  TypeScript type says `number`, but `defaultConfig` yields `undefined`
  when neither a parameter nor the environment gives one, and
  `JSON.stringify` then drops the field.
- A request whose timer fires while a later request holds the slot evicts
  that later request. The evicted request never settles, as
  `SessionManager.TimeoutEffect` and `SessionManager.SlotTakeover` state.
  This is what the source does (src/ssh-touch-session.ts:128-133); it is
  not corrected here.
- The exact text of the TypeError `touch_connect` reports when its session
  was deleted during the handshake is V8's wording
  (`Cli.UNDEFINED_CONFIG`); other JavaScript engines word it differently.
- Tools for key presses, typing or device discovery have no code in the
  source and are not modelled.
