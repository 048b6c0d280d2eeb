/** The remote touch engine: the line loop of the Python program that runs on
    the device. Each input line is already classified (blank, not JSON, JSON
    that is not an object, or a command with its fields); the outcome of
    creating the uinput device is part of the input, since it depends on the
    device. The pure functions `Step` and `Run` say what one line and a whole
    input do; the class `Engine` does the same step by step with the
    program's own helpers, and its methods are proved equal to them. */
module TouchEngine {
  import opened Types
  import opened MultiTouch
  import opened Gestures

  const PERMISSION_MESSAGE :=
    "Permission denied accessing /dev/uinput. Ensure user is in the input group: sudo usermod -aG input $USER"
  const NOT_INITIALIZED := "device not initialized, send init first"
  const DEVICE_CREATED := "uinput device created"
  const SHUTTING_DOWN := "shutting down"
  const DEFAULT_WIDTH := 800
  const DEFAULT_HEIGHT := 480
  /** `setup_uinput` waits 0.2 s for udev once the device exists. */
  const SETTLE_MS := 200.0

  /** How `setup_uinput` ends: it returns a descriptor, or raises a
      `PermissionError`, or raises any other exception with its `str`. */
  datatype SetupOutcome = SetupOk | SetupPermissionDenied | SetupFailed(message: string)

  /** One line of stdin once stripped and decoded. `id` and `type` are absent
      when the object has no such key. */
  datatype Line =
    | Blank
    | BadJson
    | NotAnObject
    | Cmd(id: Option<string>, kind: Option<string>, args: CommandArgs)

  datatype Input = Input(line: Line, setup: SetupOutcome)

  /** After a line the loop goes on, leaves by `break`, or dies of an
      exception raised outside the inner `try` (`cmd.get` on a non-object). */
  datatype Flow = Continue | Break | Crash

  /** A device created by `init`, with the axis ranges it was given. */
  datatype Device = Device(width: int, height: int)

  /** The engine's state: the tracking-id counter, the current descriptor
      (an index into `devices`, absent before the first successful `init`),
      every device created, everything written or slept, and the responses
      printed to stdout. */
  datatype EngineState = EngineState(
    counter: int,
    fd: Option<nat>,
    devices: seq<Device>,
    trace: seq<Output>,
    responses: seq<DaemonResponse>)

  const START := EngineState(0, None, [], [], [])

  /** The descriptor names a device that was created. */
  predicate Valid(s: EngineState) {
    (s.fd.Some? ==> s.fd.value < |s.devices|) && 0 <= s.counter < TRACKING_ID_MODULUS
  }

  datatype Outcome = Outcome(state: EngineState, flow: Flow)

  /** `send_response`: one more line on stdout. */
  function Respond(s: EngineState, id: string, status: Status, message: Option<string>): (r: EngineState)
    ensures r.responses == s.responses + [DaemonResponse(id, status, message)]
    ensures r.(responses := s.responses) == s
  {
    s.(responses := s.responses + [DaemonResponse(id, status, message)])
  }

  /** The `init` branch. */
  function InitDevice(s: EngineState, id: string, args: CommandArgs, setup: SetupOutcome): EngineState {
    match setup
    case SetupOk =>
      var dev := Device(args.screenWidth.GetOr(DEFAULT_WIDTH), args.screenHeight.GetOr(DEFAULT_HEIGHT));
      var s1 := s.(fd := Some(|s.devices|), devices := s.devices + [dev], trace := s.trace + [Pause(SETTLE_MS)]);
      Respond(s1, id, Ready, Some(DEVICE_CREATED))
    case SetupPermissionDenied => Respond(s, id, Error, Some(PERMISSION_MESSAGE))
    case SetupFailed(m) => Respond(s, id, Error, Some(m))
  }

  /** A gesture branch: what the handler wrote stays written, and the reply
      is `ok` without a message, or `error` with `str(e)`. */
  function Perform(s: EngineState, id: string, g: Gesture): EngineState {
    var s1 := s.(counter := g.counter, trace := s.trace + g.emitted);
    if g.error.None? then Respond(s1, id, Ok, None) else Respond(s1, id, Error, g.error)
  }

  /** The `if`/`elif` chain on the command type. */
  function Dispatch(s: EngineState, id: string, kind: string, args: CommandArgs, setup: SetupOutcome): Outcome {
    var t := ParseCommandType(kind);
    if t == Some(Init) then Outcome(InitDevice(s, id, args, setup), Continue)
    else if t == Some(Shutdown) then Outcome(Respond(s, id, Ok, Some(SHUTTING_DOWN)), Break)
    else if s.fd.None? then Outcome(Respond(s, id, Error, Some(NOT_INITIALIZED)), Continue)
    else if t == Some(Tap) then Outcome(Perform(s, id, PressGesture(args, s.counter, 50)), Continue)
    else if t == Some(Swipe) then Outcome(Perform(s, id, SwipeGesture(args, s.counter)), Continue)
    else if t == Some(LongPress) then Outcome(Perform(s, id, PressGesture(args, s.counter, 800)), Continue)
    else if t == Some(DoubleTap) then Outcome(Perform(s, id, DoubleTapGesture(args, s.counter)), Continue)
    else Outcome(Respond(s, id, Error, Some("unknown command: " + kind)), Continue)
  }

  /** One iteration of the loop in `main`. */
  function Step(s: EngineState, inp: Input): Outcome {
    match inp.line
    case Blank => Outcome(s, Continue)
    case BadJson => Outcome(s, Continue)
    case NotAnObject => Outcome(s, Crash)
    case Cmd(id, kind, args) => Dispatch(s, id.GetOr("?"), kind.GetOr(""), args, inp.setup)
  }

  /** The loop over a whole input: the final state, how it ended (`Continue`
      meaning end of input) and how many lines it read. */
  datatype RunResult = RunResult(state: EngineState, flow: Flow, consumed: nat)

  function Run(s: EngineState, ins: seq<Input>): RunResult
    decreases |ins|
  {
    if ins == [] then RunResult(s, Continue, 0)
    else
      var o := Step(s, ins[0]);
      if o.flow != Continue then RunResult(o.state, o.flow, 1)
      else
        var r := Run(o.state, ins[1..]);
        r.(consumed := r.consumed + 1)
  }

  // ---- One line ----

  /** Blank lines and lines that are not JSON are skipped without a reply. */
  lemma SilentLines(s: EngineState, inp: Input)
    requires inp.line.Blank? || inp.line.BadJson?
    ensures Step(s, inp) == Outcome(s, Continue)
  {
  }

  function ReplyId(l: Line): string
    requires l.Cmd?
  {
    l.id.GetOr("?")
  }

  /** Every command line gets exactly one reply, carrying its id or "?";
      no other line gets one. Only `shutdown` leaves the loop, and only a
      non-object line crashes it. */
  lemma {:induction false} OneReplyPerCommand(s: EngineState, inp: Input)
    ensures var o := Step(s, inp);
      && (inp.line.Cmd? ==>
            |o.state.responses| == |s.responses| + 1
            && o.state.responses[..|s.responses|] == s.responses
            && o.state.responses[|s.responses|].id == ReplyId(inp.line))
      && (!inp.line.Cmd? ==> o.state == s)
      && (o.flow == Break <==> inp.line.Cmd? && inp.line.kind == Some("shutdown"))
      && (o.flow == Crash <==> inp.line.NotAnObject?)
  {
    if inp.line.Cmd? {
      var id, kind, args := ReplyId(inp.line), inp.line.kind.GetOr(""), inp.line.args;
      var o := Dispatch(s, id, kind, args, inp.setup);
      assert Step(s, inp) == o;
      var t := ParseCommandType(kind);
      assert o.flow == Break <==> t == Some(Shutdown);
      assert t == Some(Shutdown) <==> kind == "shutdown" by {
        if t == Some(Shutdown) {
          assert CommandTypeName(Shutdown) == kind;
        }
      }
      assert kind == "shutdown" <==> inp.line.kind == Some("shutdown");
    }
  }

  /** Before a successful `init`, every command but `init` and `shutdown`
      is refused with the fixed message and writes nothing. */
  lemma NotInitializedGuard(s: EngineState, id: Option<string>, kind: Option<string>, args: CommandArgs, setup: SetupOutcome)
    requires s.fd.None? && kind != Some("init") && kind != Some("shutdown")
    ensures Step(s, Input(Cmd(id, kind, args), setup)) ==
      Outcome(Respond(s, id.GetOr("?"), Error, Some(NOT_INITIALIZED)), Continue)
  {
    var k := kind.GetOr("");
    assert k != "init" && k != "shutdown";
    assert ParseCommandType(k) != Some(Init) && ParseCommandType(k) != Some(Shutdown);
  }

  /** Once initialised, a type outside the six tags is answered with
      "unknown command: " and the type. */
  lemma UnknownCommand(s: EngineState, id: Option<string>, kind: Option<string>, args: CommandArgs, setup: SetupOutcome)
    requires s.fd.Some?
    requires kind.GetOr("") !in {"init", "tap", "swipe", "long_press", "double_tap", "shutdown"}
    ensures Step(s, Input(Cmd(id, kind, args), setup)) ==
      Outcome(Respond(s, id.GetOr("?"), Error, Some("unknown command: " + kind.GetOr(""))), Continue)
  {
  }

  /** An `init` whose device setup raises leaves the descriptor, the devices,
      the trace and the counter as they were, and replies `error` with the
      group-membership hint for a permission error and `str(e)` otherwise. */
  lemma FailedInit(s: EngineState, id: Option<string>, args: CommandArgs, setup: SetupOutcome)
    requires setup != SetupOk
    ensures var o := Step(s, Input(Cmd(id, Some("init"), args), setup));
      var msg := if setup.SetupPermissionDenied? then PERMISSION_MESSAGE else setup.message;
      && o.flow == Continue
      && o.state == Respond(s, id.GetOr("?"), Error, Some(msg))
      && o.state.fd == s.fd && o.state.trace == s.trace && o.state.counter == s.counter
  {
  }

  /** A successful `init` creates one device with the requested size, 800 by
      480 by default, and makes it current. */
  lemma SuccessfulInit(s: EngineState, id: Option<string>, args: CommandArgs)
    ensures var o := Step(s, Input(Cmd(id, Some("init"), args), SetupOk));
      && o.flow == Continue
      && o.state.fd == Some(|s.devices|)
      && o.state.devices == s.devices + [Device(args.screenWidth.GetOr(800), args.screenHeight.GetOr(480))]
      && o.state.responses == s.responses + [DaemonResponse(id.GetOr("?"), Ready, Some("uinput device created"))]
  {
  }

  /** A tap on an initialised engine appends the tap's trace and replies
      `ok` with no message, or `error` with the exception's text. */
  lemma TapStep(s: EngineState, id: Option<string>, args: CommandArgs, setup: SetupOutcome)
    requires s.fd.Some?
    ensures var o := Step(s, Input(Cmd(id, Some("tap"), args), setup));
      var g := PressGesture(args, s.counter, 50);
      && o.flow == Continue
      && o.state.trace == s.trace + g.emitted && o.state.counter == g.counter
      && o.state.fd == s.fd && o.state.devices == s.devices
      && o.state.responses == s.responses +
           [if g.error.None? then DaemonResponse(id.GetOr("?"), Ok, None)
            else DaemonResponse(id.GetOr("?"), Error, g.error)]
  {
  }

  /** A reply carries no message exactly when a gesture completed. */
  lemma {:induction false} MessageOnlyWhenGiven(s: EngineState, inp: Input)
    requires inp.line.Cmd?
    ensures var o := Step(s, inp);
      var reply := o.state.responses[|s.responses|];
      && |o.state.responses| == |s.responses| + 1
      && (reply.message.None? <==> reply.status == Ok && inp.line.kind != Some("shutdown"))
  {
    OneReplyPerCommand(s, inp);
    var id, kind, args := ReplyId(inp.line), inp.line.kind.GetOr(""), inp.line.args;
    var g := PressGesture(args, s.counter, 50);
    var g2 := PressGesture(args, s.counter, 800);
    var g3 := SwipeGesture(args, s.counter);
    var g4 := DoubleTapGesture(args, s.counter);
    assert g.error.None? || g.error.Some?;
    assert kind == "shutdown" <==> inp.line.kind == Some("shutdown");
  }

  /** One line keeps the state well formed. */
  lemma {:induction false} StepValid(s: EngineState, inp: Input)
    requires Valid(s)
    ensures Valid(Step(s, inp).state)
  {
    if inp.line.Cmd? {
      var args := inp.line.args;
      var tap := PressGesture(args, s.counter, 50);
      var press := PressGesture(args, s.counter, 800);
      var swipe := SwipeGesture(args, s.counter);
      var twice := DoubleTapGesture(args, s.counter);
    }
  }

  // ---- A whole input ----

  /** Running two pieces of input is running the first, then, if the loop is
      still going, the second from where it stopped. */
  lemma {:induction false} RunAppend(s: EngineState, a: seq<Input>, b: seq<Input>)
    ensures var ra := Run(s, a);
      Run(s, a + b) == if ra.flow != Continue then ra
        else var rb := Run(ra.state, b); rb.(consumed := ra.consumed + rb.consumed)
    decreases |a|
  {
    if a == [] {
      assert a + b == b;
    } else {
      assert (a + b)[0] == a[0];
      assert (a + b)[1..] == a[1..] + b;
      var o := Step(s, a[0]);
      if o.flow == Continue {
        RunAppend(o.state, a[1..], b);
      }
    }
  }

  /** Nothing after a `shutdown` line is read. */
  lemma ShutdownEndsInput(s: EngineState, before: seq<Input>, id: Option<string>, args: CommandArgs,
                          setup: SetupOutcome, after: seq<Input>)
    ensures var stop := Input(Cmd(id, Some("shutdown"), args), setup);
      Run(s, before + [stop] + after) == Run(s, before + [stop])
      && Run(s, before + [stop]).flow != Continue
  {
    var stop := Input(Cmd(id, Some("shutdown"), args), setup);
    RunAppend(s, before, [stop]);
    RunAppend(s, before + [stop], after);
    var rb := Run(s, before);
    if rb.flow == Continue {
      assert Step(rb.state, stop).flow == Break;
      assert [stop][1..] == [];
    }
  }

  /** The ids of the command lines of an input, in order. */
  function CommandIds(ins: seq<Input>): seq<string> {
    if ins == [] then []
    else (if ins[0].line.Cmd? then [ReplyId(ins[0].line)] else []) + CommandIds(ins[1..])
  }

  function ResponseIds(rs: seq<DaemonResponse>): seq<string> {
    if rs == [] then [] else [rs[0].id] + ResponseIds(rs[1..])
  }

  lemma {:induction false} ResponseIdsAppend(a: seq<DaemonResponse>, b: seq<DaemonResponse>)
    ensures ResponseIds(a + b) == ResponseIds(a) + ResponseIds(b)
  {
    if a == [] {
      assert a + b == b;
    } else {
      ResponseIdsAppend(a[1..], b);
      assert (a + b)[1..] == a[1..] + b;
      calc {
        ResponseIds(a + b);
        [a[0].id] + ResponseIds(a[1..] + b);
        [a[0].id] + (ResponseIds(a[1..]) + ResponseIds(b));
        ([a[0].id] + ResponseIds(a[1..])) + ResponseIds(b);
      }
    }
  }

  /** One line adds the ids of the replies it gets: its own for a command
      line, none otherwise. */
  lemma {:induction false} StepReplies(s: EngineState, inp: Input)
    ensures var o := Step(s, inp);
      && |s.responses| <= |o.state.responses|
      && o.state.responses[..|s.responses|] == s.responses
      && ResponseIds(o.state.responses[|s.responses|..]) == (if inp.line.Cmd? then [ReplyId(inp.line)] else [])
  {
    var o := Step(s, inp);
    OneReplyPerCommand(s, inp);
    var added := o.state.responses[|s.responses|..];
    if inp.line.Cmd? {
      assert added == [o.state.responses[|s.responses|]];
      assert added[1..] == [];
    } else {
      assert added == [];
    }
  }

  /** The replies to a run are one per command line read, in the order of
      the lines, with their ids; the replies already printed stay. */
  lemma {:induction false} RepliesFollowCommands(s: EngineState, ins: seq<Input>)
    ensures var r := Run(s, ins);
      && r.consumed <= |ins|
      && |s.responses| <= |r.state.responses|
      && r.state.responses[..|s.responses|] == s.responses
      && ResponseIds(r.state.responses[|s.responses|..]) == CommandIds(ins[..r.consumed])
    decreases |ins|
  {
    if ins != [] {
      var o := Step(s, ins[0]);
      StepReplies(s, ins[0]);
      if o.flow != Continue {
        assert ins[..1] == [ins[0]] && [ins[0]][1..] == [];
      } else {
        RepliesFollowCommands(o.state, ins[1..]);
        var r := Run(o.state, ins[1..]);
        RunTail(s.responses, o.state.responses, r.state.responses, ins, r.consumed);
      }
    }
  }

  /** The inductive step of `RepliesFollowCommands`, on the reply logs:
      `before` grows to `mid` on the first line and to `after` on the
      rest, which consumed `n` lines. */
  lemma {:induction false} RunTail(before: seq<DaemonResponse>, mid: seq<DaemonResponse>,
      after: seq<DaemonResponse>, ins: seq<Input>, n: nat)
    requires ins != [] && n <= |ins| - 1
    requires |before| <= |mid| && mid[..|before|] == before
    requires ResponseIds(mid[|before|..]) == (if ins[0].line.Cmd? then [ReplyId(ins[0].line)] else [])
    requires |mid| <= |after| && after[..|mid|] == mid
    requires ResponseIds(after[|mid|..]) == CommandIds(ins[1..][..n])
    ensures |before| <= |after| && after[..|before|] == before
    ensures ResponseIds(after[|before|..]) == CommandIds(ins[..n + 1])
  {
    assert after[..|before|] == before by {
      assert after[..|mid|][..|before|] == after[..|before|];
    }
    assert mid[|before|..] == after[|before|..|mid|];
    assert after[|before|..] == after[|before|..|mid|] + after[|mid|..];
    ResponseIdsAppend(mid[|before|..], after[|mid|..]);
    assert ins[..n + 1] == [ins[0]] + ins[1..][..n];
    assert ([ins[0]] + ins[1..][..n])[1..] == ins[1..][..n];
  }

  /** The line ends a successful `init`. */
  predicate InitSucceeds(inp: Input) {
    inp.line.Cmd? && inp.line.kind == Some("init") && inp.setup == SetupOk
  }

  /** At the end of a run there is a descriptor, which the `finally` block
      destroys, exactly when one was there before or some line read was a
      successful `init`. */
  lemma {:induction false} DescriptorIffInit(s: EngineState, ins: seq<Input>)
    ensures var r := Run(s, ins);
      r.consumed <= |ins|
      && (r.state.fd.Some? <==> s.fd.Some? || exists i :: 0 <= i < r.consumed && InitSucceeds(ins[i]))
    decreases |ins|
  {
    if ins != [] {
      var o := Step(s, ins[0]);
      assert o.state.fd.Some? <==> s.fd.Some? || InitSucceeds(ins[0]) by {
        if ins[0].line.Cmd? {
          var kind := ins[0].line.kind.GetOr("");
          var t := ParseCommandType(kind);
          assert t == Some(Init) <==> ins[0].line.kind == Some("init") by {
            if t == Some(Init) {
              assert CommandTypeName(Init) == kind;
            }
          }
        }
      }
      if o.flow == Continue {
        DescriptorIffInit(o.state, ins[1..]);
        var r := Run(o.state, ins[1..]);
        if exists i :: 0 <= i < r.consumed && InitSucceeds(ins[1..][i]) {
          var i :| 0 <= i < r.consumed && InitSucceeds(ins[1..][i]);
          assert InitSucceeds(ins[i + 1]);
        }
        if exists i :: 0 <= i < r.consumed + 1 && InitSucceeds(ins[i]) {
          var i :| 0 <= i < r.consumed + 1 && InitSucceeds(ins[i]);
          if i > 0 {
            assert InitSucceeds(ins[1..][i - 1]);
          }
        }
      }
    }
  }

  /** A run keeps the state well formed; in particular every tracking id the
      engine hands out lies in [0, 65535]. */
  lemma {:induction false} RunValid(s: EngineState, ins: seq<Input>)
    requires Valid(s)
    ensures Valid(Run(s, ins).state)
    decreases |ins|
  {
    if ins != [] {
      StepValid(s, ins[0]);
      if Step(s, ins[0]).flow == Continue {
        RunValid(Step(s, ins[0]).state, ins[1..]);
      }
    }
  }

  // ---- The program, step by step ----

  /** An exception raised by `setup_uinput`. */
  datatype Raised = PermissionError | OtherError(message: string)

  /** The module globals and `main`'s locals of the running program. */
  class Engine {
    var counter: int
    var fd: Option<nat>
    var devices: seq<Device>
    var trace: seq<Output>
    var responses: seq<DaemonResponse>
    /** The descriptor the `finally` block destroyed, if any. */
    var destroyed: Option<nat>

    function State(): EngineState
      reads this
    {
      EngineState(counter, fd, devices, trace, responses)
    }

    /** Start-up: `tracking_id_counter = 0`, `fd = None`, nothing written. */
    constructor ()
      ensures State() == START && destroyed.None?
    {
      counter, fd, devices, trace, responses, destroyed := 0, None, [], [], [], None;
    }

    /** `next_tracking_id`. */
    method NextTrackingId() returns (tid: int)
      modifies this`counter
      ensures counter == NextId(old(counter)) && tid == counter
    {
      counter := (counter + 1) % TRACKING_ID_MODULUS;
      tid := counter;
    }

    /** `write_event`: one event on the current device. */
    method WriteEvent(evType: int, code: int, value: int)
      modifies this`trace
      ensures trace == old(trace) + [Emit(InputEvent(evType, code, value))]
    {
      trace := trace + [Emit(InputEvent(evType, code, value))];
    }

    method SynReport()
      modifies this`trace
      ensures trace == old(trace) + SynGroup()
    {
      WriteEvent(EV_SYN, SYN_REPORT, 0);
    }

    method TouchDown(slot: int, trackingId: int, x: int, y: int)
      modifies this`trace
      ensures trace == old(trace) + DownGroup(slot, trackingId, x, y)
    {
      WriteEvent(EV_ABS, ABS_MT_SLOT, slot);
      WriteEvent(EV_ABS, ABS_MT_TRACKING_ID, trackingId);
      WriteEvent(EV_ABS, ABS_MT_POSITION_X, x);
      WriteEvent(EV_ABS, ABS_MT_POSITION_Y, y);
      SynReport();
    }

    method TouchMove(slot: int, x: int, y: int)
      modifies this`trace
      ensures trace == old(trace) + MoveGroup(slot, x, y)
    {
      WriteEvent(EV_ABS, ABS_MT_SLOT, slot);
      WriteEvent(EV_ABS, ABS_MT_POSITION_X, x);
      WriteEvent(EV_ABS, ABS_MT_POSITION_Y, y);
      SynReport();
    }

    method TouchUp(slot: int)
      modifies this`trace
      ensures trace == old(trace) + UpGroup(slot)
    {
      WriteEvent(EV_ABS, ABS_MT_SLOT, slot);
      WriteEvent(EV_ABS, ABS_MT_TRACKING_ID, -1);
      SynReport();
    }

    /** `time.sleep`, in milliseconds: a negative length raises. */
    method Sleep(ms: real) returns (err: Option<string>)
      modifies this`trace
      ensures ms < 0.0 ==> err == Some(SLEEP_ERROR) && trace == old(trace)
      ensures ms >= 0.0 ==> err.None? && trace == old(trace) + [Pause(ms)]
    {
      if ms < 0.0 {
        return Some(SLEEP_ERROR);
      }
      trace := trace + [Pause(ms)];
      return None;
    }

    /** `handle_tap` and `handle_long_press`, which differ only in the default
      duration. */
    method HandlePress(args: CommandArgs, defaultMs: int) returns (err: Option<string>)
      modifies this`counter, this`trace
      ensures var g := PressGesture(args, old(counter), defaultMs);
        trace == old(trace) + g.emitted && counter == g.counter && err == g.error
    {
      if args.x.None? {
        return Some(KeyError("x"));
      }
      if args.y.None? {
        return Some(KeyError("y"));
      }
      var duration := args.durationMs.GetOr(defaultMs);
      var tid := NextTrackingId();
      TouchDown(0, tid, args.x.value, args.y.value);
      err := Sleep(duration as real);
      if err.Some? {
        return;
      }
      TouchUp(0);
    }

    method HandleTap(args: CommandArgs) returns (err: Option<string>)
      modifies this`counter, this`trace
      ensures var g := PressGesture(args, old(counter), 50);
        trace == old(trace) + g.emitted && counter == g.counter && err == g.error
    {
      err := HandlePress(args, 50);
    }

    method HandleLongPress(args: CommandArgs) returns (err: Option<string>)
      modifies this`counter, this`trace
      ensures var g := PressGesture(args, old(counter), 800);
        trace == old(trace) + g.emitted && counter == g.counter && err == g.error
    {
      err := HandlePress(args, 800);
    }

    /** `handle_swipe`: down at the start, then for each step a sleep of
        `duration / steps` and a move, then up. */
    method HandleSwipe(args: CommandArgs) returns (err: Option<string>)
      modifies this`counter, this`trace
      ensures var g := SwipeGesture(args, old(counter));
        trace == old(trace) + g.emitted && counter == g.counter && err == g.error
    {
      if args.x.None? {
        return Some(KeyError("x"));
      }
      if args.y.None? {
        return Some(KeyError("y"));
      }
      if args.x2.None? {
        return Some(KeyError("x2"));
      }
      if args.y2.None? {
        return Some(KeyError("y2"));
      }
      var x1, y1, x2, y2 := args.x.value, args.y.value, args.x2.value, args.y2.value;
      var duration := args.durationMs.GetOr(300);
      var steps := args.steps.GetOr(DefaultSteps(duration));
      var tid := NextTrackingId();
      TouchDown(0, tid, x1, y1);
      err := MoveThrough(x1, y1, x2, y2, steps, duration);
      if err.Some? {
        return;
      }
      TouchUp(0);
    }

    /** The move loop of `handle_swipe`: `for i in range(1, steps + 1)`, each
        iteration sleeping `duration / steps` and then moving to point `i`. */
    method MoveThrough(x1: int, y1: int, x2: int, y2: int, steps: int, duration: int) returns (err: Option<string>)
      modifies this`trace
      ensures steps <= 0 ==> err.None? && trace == old(trace)
      ensures steps > 0 && duration < 0 ==> err == Some(SLEEP_ERROR) && trace == old(trace)
      ensures steps > 0 && duration >= 0 ==>
        err.None? && trace == old(trace) + SwipeMoves(x1, y1, x2, y2, steps, duration as real / steps as real, steps)
    {
      var i := 1;
      while i <= steps
        invariant 1 <= i && (steps > 0 ==> i <= steps + 1)
        invariant steps <= 0 ==> trace == old(trace)
        invariant steps > 0 ==>
          trace == old(trace) + SwipeMoves(x1, y1, x2, y2, steps, duration as real / steps as real, i - 1)
        invariant i > 1 ==> duration >= 0
      {
        var pause := duration as real / steps as real;
        err := Sleep(pause);
        if err.Some? {
          return;
        }
        TouchMove(0, Interp(x1, x2, i, steps), Interp(y1, y2, i, steps));
        i := i + 1;
      }
      err := None;
    }

    /** `handle_double_tap`. */
    method HandleDoubleTap(args: CommandArgs) returns (err: Option<string>)
      modifies this`counter, this`trace
      ensures var g := DoubleTapGesture(args, old(counter));
        trace == old(trace) + g.emitted && counter == g.counter && err == g.error
    {
      if args.x.None? {
        return Some(KeyError("x"));
      }
      if args.y.None? {
        return Some(KeyError("y"));
      }
      var x, y := args.x.value, args.y.value;
      var tid := NextTrackingId();
      TouchDown(0, tid, x, y);
      err := Sleep(50.0);
      TouchUp(0);
      err := Sleep(100.0);
      tid := NextTrackingId();
      TouchDown(0, tid, x, y);
      err := Sleep(50.0);
      TouchUp(0);
    }

    /** `send_response`. */
    method SendResponse(id: string, status: Status, message: Option<string>)
      modifies this`responses
      ensures responses == old(responses) + [DaemonResponse(id, status, message)]
    {
      responses := responses + [DaemonResponse(id, status, message)];
    }

    /** `setup_uinput`, whose system calls are the given outcome: on success
        a new device with the requested axis ranges and the settling sleep. */
    method SetupUinput(width: int, height: int, setup: SetupOutcome) returns (newFd: nat, raised: Option<Raised>)
      modifies this`devices, this`trace
      ensures setup == SetupOk ==>
        raised.None? && newFd == |old(devices)|
        && devices == old(devices) + [Device(width, height)] && trace == old(trace) + [Pause(SETTLE_MS)]
      ensures setup == SetupPermissionDenied ==>
        raised == Some(PermissionError) && devices == old(devices) && trace == old(trace)
      ensures setup.SetupFailed? ==>
        raised == Some(OtherError(setup.message)) && devices == old(devices) && trace == old(trace)
    {
      newFd := |devices|;
      match setup
      case SetupPermissionDenied =>
        raised := Some(PermissionError);
      case SetupFailed(m) =>
        raised := Some(OtherError(m));
      case SetupOk =>
        devices := devices + [Device(width, height)];
        var slept := Sleep(SETTLE_MS);
        raised := None;
    }

    /** A gesture handler has returned: reply `ok`, or `error` with the text
        of what it raised. */
    method Reply(id: string, err: Option<string>)
      modifies this`responses
      ensures responses == old(responses) + [if err.None? then DaemonResponse(id, Ok, None) else DaemonResponse(id, Error, err)]
    {
      if err.None? {
        SendResponse(id, Ok, None);
      } else {
        SendResponse(id, Error, err);
      }
    }

    /** The body of the loop in `main` for one line. */
    method HandleLine(inp: Input) returns (flow: Flow)
      modifies this`counter, this`fd, this`devices, this`trace, this`responses
      ensures State() == Step(old(State()), inp).state && flow == Step(old(State()), inp).flow
    {
      match inp.line
      case Blank =>
        flow := Continue;
      case BadJson =>
        flow := Continue;
      case NotAnObject =>
        flow := Crash;
      case Cmd(id, kind, args) =>
        var cmdId := id.GetOr("?");
        var cmdType := kind.GetOr("");
        var t := ParseCommandType(cmdType);
        flow := Continue;
        if t == Some(Init) {
          var newFd, raised := SetupUinput(args.screenWidth.GetOr(DEFAULT_WIDTH), args.screenHeight.GetOr(DEFAULT_HEIGHT), inp.setup);
          if raised.None? {
            fd := Some(newFd);
            SendResponse(cmdId, Ready, Some(DEVICE_CREATED));
          } else if raised == Some(PermissionError) {
            SendResponse(cmdId, Error, Some(PERMISSION_MESSAGE));
          } else {
            SendResponse(cmdId, Error, Some(raised.value.message));
          }
        } else if t == Some(Shutdown) {
          SendResponse(cmdId, Ok, Some(SHUTTING_DOWN));
          flow := Break;
        } else if fd.None? {
          SendResponse(cmdId, Error, Some(NOT_INITIALIZED));
        } else if t == Some(Tap) {
          var err := HandleTap(args);
          Reply(cmdId, err);
        } else if t == Some(Swipe) {
          var err := HandleSwipe(args);
          Reply(cmdId, err);
        } else if t == Some(LongPress) {
          var err := HandleLongPress(args);
          Reply(cmdId, err);
        } else if t == Some(DoubleTap) {
          var err := HandleDoubleTap(args);
          Reply(cmdId, err);
        } else {
          SendResponse(cmdId, Error, Some("unknown command: " + cmdType));
        }
    }

    /** `main`: `fd = None`, the loop over the input until its end, a
        `break` or a crash, then the `finally` block, which destroys the
        current device if there is one. */
    method Serve(inputs: seq<Input>) returns (flow: Flow, consumed: nat)
      modifies this`counter, this`fd, this`devices, this`trace, this`responses, this`destroyed
      ensures var r := Run(old(State()).(fd := None), inputs);
        State() == r.state && flow == r.flow && consumed == r.consumed
      ensures destroyed == if fd.Some? then fd else old(destroyed)
    {
      fd := None;
      ghost var s0 := State();
      var i := 0;
      flow := Continue;
      while i < |inputs| && flow == Continue
        invariant 0 <= i <= |inputs|
        invariant flow == Continue ==>
          var r := Run(State(), inputs[i..]); Run(s0, inputs) == r.(consumed := r.consumed + i)
        invariant flow != Continue ==> Run(s0, inputs) == RunResult(State(), flow, i)
        invariant destroyed == old(destroyed)
      {
        ghost var before := State();
        assert inputs[i..][0] == inputs[i] && inputs[i..][1..] == inputs[i + 1..];
        flow := HandleLine(inputs[i]);
        i := i + 1;
      }
      consumed := i;
      if fd.Some? {
        destroyed := fd;
      }
    }
  }
}
