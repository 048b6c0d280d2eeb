/** The entry point's own logic: the command-line scan, the configuration
    defaults taken from the environment, and the tool handlers' mapping from
    parameters to engine commands and from outcomes to tool results. The
    environment is a map; `Number()` on a string and `Date.now()` are
    parameters. */
module Cli {
  import opened Types
  import Text
  import Gestures
  import TouchEngine
  import SessionManager

  // ---- Command line ----

  datatype Options = Options(server: bool, port: int, host: string)

  /** `process.env[key] ?? fallback`: a variable set to "" stays "". */
  function EnvOr(env: map<string, string>, key: string, fallback: string): string {
    if key in env then env[key] else fallback
  }

  /** The options before the scan. */
  function Initial(env: map<string, string>, num: string -> int): Options {
    Options(false, num(EnvOr(env, "REMOTETOUCH_PORT", "3000")), "0.0.0.0")
  }

  /** Whether `argv[i]` takes the next argument as its value. */
  predicate TakesValue(argv: seq<string>, i: nat)
    requires i < |argv|
  {
    (argv[i] == "--port" || argv[i] == "--host") && i + 1 < |argv|
  }

  /** The position the scan looks at after `argv[i]`. */
  function Next(argv: seq<string>, i: nat): (j: nat)
    requires i < |argv|
    ensures i < j <= |argv|
  {
    if TakesValue(argv, i) then i + 2 else i + 1
  }

  /** What `argv[i]` does to the options. */
  function Update(argv: seq<string>, i: nat, o: Options, num: string -> int): Options
    requires i < |argv|
  {
    if argv[i] == "--server" then o.(server := true)
    else if TakesValue(argv, i) && argv[i] == "--port" then o.(port := num(argv[i + 1]))
    else if TakesValue(argv, i) then o.(host := argv[i + 1])
    else o
  }

  /** The options after scanning `argv` from position `i`. */
  function Scan(argv: seq<string>, i: nat, o: Options, num: string -> int): Options
    decreases |argv| - i
  {
    if i >= |argv| then o else Scan(argv, Next(argv, i), Update(argv, i, o, num), num)
  }

  /** The positions the scan treats as flags: a value taken by "--port" or
      "--host" is never one of them. */
  predicate Visits(argv: seq<string>, i: nat, k: nat)
    decreases |argv| - i
  {
    i == k || (i < k && i < |argv| && Visits(argv, Next(argv, i), k))
  }

  /** `parseArgs`: from index 2 on, "--server" sets the flag, and "--port"
      and "--host" take the next argument when there is one. */
  method ParseArgs(argv: seq<string>, env: map<string, string>, num: string -> int) returns (o: Options)
    ensures o == Scan(argv, 2, Initial(env, num), num)
  {
    o := Initial(env, num);
    var i := 2;
    while i < |argv|
      invariant i >= 2
      invariant Scan(argv, i, o, num) == Scan(argv, 2, Initial(env, num), num)
      decreases |argv| - i
    {
      if argv[i] == "--server" {
        o := o.(server := true);
      } else if argv[i] == "--port" && i + 1 < |argv| {
        i := i + 1;
        o := o.(port := num(argv[i]));
      } else if argv[i] == "--host" && i + 1 < |argv| {
        i := i + 1;
        o := o.(host := argv[i]);
      }
      i := i + 1;
    }
  }

  predicate IsFlag(s: string) {
    s == "--server" || s == "--port" || s == "--host"
  }

  /** Without any of the three flags the options are the defaults. */
  lemma {:induction false} NoFlagsDefaults(argv: seq<string>, i: nat, o: Options, num: string -> int)
    requires forall k :: i <= k < |argv| ==> !IsFlag(argv[k])
    ensures Scan(argv, i, o, num) == o
    decreases |argv| - i
  {
    if i < |argv| {
      NoFlagsDefaults(argv, Next(argv, i), o, num);
    }
  }

  /** Whatever the scan did before it reached a visited position, it goes on
      from there. */
  lemma {:induction false} ScanThrough(argv: seq<string>, i: nat, k: nat, o: Options, num: string -> int)
    requires Visits(argv, i, k)
    ensures exists o2 :: Scan(argv, i, o, num) == Scan(argv, k, o2, num)
    decreases |argv| - i
  {
    if i == k {
      assert Scan(argv, i, o, num) == Scan(argv, k, o, num);
    } else {
      ScanThrough(argv, Next(argv, i), k, Update(argv, i, o, num), num);
    }
  }

  lemma {:induction false} ServerKept(argv: seq<string>, i: nat, o: Options, num: string -> int)
    requires o.server
    ensures Scan(argv, i, o, num).server
    decreases |argv| - i
  {
    if i < |argv| {
      ServerKept(argv, Next(argv, i), Update(argv, i, o, num), num);
    }
  }

  /** The server flag is set exactly when the scan meets "--server" at a
      position it treats as a flag. */
  lemma {:induction false} ServerIffFlag(argv: seq<string>, i: nat, o: Options, num: string -> int)
    requires !o.server
    ensures Scan(argv, i, o, num).server <==> exists k :: i <= k < |argv| && Visits(argv, i, k) && argv[k] == "--server"
    decreases |argv| - i
  {
    if i < |argv| {
      var j := Next(argv, i);
      if argv[i] == "--server" {
        ServerKept(argv, j, Update(argv, i, o, num), num);
        assert Visits(argv, i, i);
      } else {
        ServerIffFlag(argv, j, Update(argv, i, o, num), num);
        if Scan(argv, i, o, num).server {
          var k :| j <= k < |argv| && Visits(argv, j, k) && argv[k] == "--server";
          assert Visits(argv, i, k);
        }
        forall k | i <= k < |argv| && Visits(argv, i, k) && argv[k] == "--server"
          ensures Scan(argv, i, o, num).server
        {
          assert k != i;
          assert Visits(argv, j, k);
        }
      }
    }
  }

  /** A position the scan reaches from one it reaches is reached too. */
  lemma {:induction false} VisitsTrans(argv: seq<string>, i: nat, j: nat, k: nat)
    requires Visits(argv, i, j) && Visits(argv, j, k)
    ensures Visits(argv, i, k)
    decreases |argv| - i
  {
    if i != j {
      VisitsTrans(argv, Next(argv, i), j, k);
    }
  }

  /** A port that no later "--port" with a value overrides. */
  lemma {:induction false} PortKept(argv: seq<string>, i: nat, o: Options, num: string -> int)
    requires forall m :: i <= m < |argv| && Visits(argv, i, m) && argv[m] == "--port" ==> m + 1 >= |argv|
    ensures Scan(argv, i, o, num).port == o.port
    decreases |argv| - i
  {
    if i < |argv| {
      var j := Next(argv, i);
      assert Visits(argv, i, i);
      forall m | j <= m < |argv| && Visits(argv, j, m) ensures Visits(argv, i, m) {
      }
      PortKept(argv, j, Update(argv, i, o, num), num);
    }
  }

  /** A host that no later "--host" with a value overrides. */
  lemma {:induction false} HostKept(argv: seq<string>, i: nat, o: Options, num: string -> int)
    requires forall m :: i <= m < |argv| && Visits(argv, i, m) && argv[m] == "--host" ==> m + 1 >= |argv|
    ensures Scan(argv, i, o, num).host == o.host
    decreases |argv| - i
  {
    if i < |argv| {
      var j := Next(argv, i);
      assert Visits(argv, i, i);
      forall m | j <= m < |argv| && Visits(argv, j, m) ensures Visits(argv, i, m) {
      }
      HostKept(argv, j, Update(argv, i, o, num), num);
    }
  }

  /** No "--port" or "--host" (as `flag` says) after position `k` that the
      scan treats as a flag has a value. */
  predicate NoLaterValue(argv: seq<string>, k: nat, flag: string) {
    forall m :: k < m < |argv| && Visits(argv, 2, m) && argv[m] == flag ==> m + 1 >= |argv|
  }

  /** The last "--port" the scan treats as a flag and that has a value
      decides the port, and likewise for "--host"; a later flag without a
      value, or a "--port" read as the value of "--host", does not count. */
  lemma LastValueWins(argv: seq<string>, k: nat, env: map<string, string>, num: string -> int)
    requires Visits(argv, 2, k) && k + 1 < |argv|
    ensures argv[k] == "--port" && NoLaterValue(argv, k, "--port") ==>
      Scan(argv, 2, Initial(env, num), num).port == num(argv[k + 1])
    ensures argv[k] == "--host" && NoLaterValue(argv, k, "--host") ==>
      Scan(argv, 2, Initial(env, num), num).host == argv[k + 1]
  {
    ScanThrough(argv, 2, k, Initial(env, num), num);
    var o2 :| Scan(argv, 2, Initial(env, num), num) == Scan(argv, k, o2, num);
    if argv[k] == "--port" || argv[k] == "--host" {
      assert Visits(argv, k, k + 2) by {
        assert Next(argv, k) == k + 2;
        assert Visits(argv, k + 2, k + 2);
      }
      VisitsTrans(argv, 2, k, k + 2);
    }
    if argv[k] == "--port" && NoLaterValue(argv, k, "--port") {
      forall m | k + 2 <= m < |argv| && Visits(argv, k + 2, m) && argv[m] == "--port" ensures m + 1 >= |argv| {
        VisitsTrans(argv, 2, k + 2, m);
      }
      PortKept(argv, k + 2, Update(argv, k, o2, num), num);
    }
    if argv[k] == "--host" && NoLaterValue(argv, k, "--host") {
      forall m | k + 2 <= m < |argv| && Visits(argv, k + 2, m) && argv[m] == "--host" ensures m + 1 >= |argv| {
        VisitsTrans(argv, 2, k + 2, m);
      }
      HostKept(argv, k + 2, Update(argv, k, o2, num), num);
    }
  }

  /** A "--port" or "--host" with nothing after it, met as a flag, is
      ignored: the scan of `argv` with it appended ends as the scan of
      `argv` does. */
  lemma {:induction false} TrailingFlagIgnored(argv: seq<string>, f: string, i: nat, o: Options, num: string -> int)
    requires f == "--port" || f == "--host"
    requires Visits(argv + [f], i, |argv|)
    ensures Scan(argv + [f], i, o, num) == Scan(argv, i, o, num)
    decreases |argv| - i
  {
    var ext := argv + [f];
    if i == |argv| {
      assert ext[i] == f && !TakesValue(ext, i);
      assert Scan(ext, i, o, num) == Scan(ext, i + 1, o, num);
    } else {
      assert ext[i] == argv[i];
      var j := Next(ext, i);
      assert Visits(ext, j, |argv|);
      if i + 1 < |argv| {
        assert ext[i + 1] == argv[i + 1];
      }
      assert Next(argv, i) == j;
      assert Update(ext, i, o, num) == Update(argv, i, o, num);
      TrailingFlagIgnored(argv, f, j, Update(argv, i, o, num), num);
    }
  }

  // ---- Configuration ----

  /** The tool parameters of `touch_connect`, each possibly absent. */
  datatype Overrides = Overrides(
    host: Option<string>,
    user: Option<string>,
    port: Option<int>,
    sshKey: Option<string>,
    screenWidth: Option<int>,
    screenHeight: Option<int>,
    useSudo: Option<bool>)

  const NO_OVERRIDES := Overrides(None, None, None, None, None, None, None)

  function OrElse<T>(a: Option<T>, b: Option<T>): Option<T> {
    if a.Some? then a else b
  }

  function EnvOpt(env: map<string, string>, key: string): Option<string> {
    if key in env then Some(env[key]) else None
  }

  /** A screen dimension from the environment, only when set and non-empty. */
  function EnvDim(env: map<string, string>, key: string, num: string -> int): Option<int> {
    if key in env && env[key] != "" then Some(num(env[key])) else None
  }

  /** `defaultConfig`: each field from the override, else the environment,
      else the literal default. */
  function DefaultConfig(ov: Overrides, env: map<string, string>, num: string -> int): SessionConfig {
    SessionConfig(
      ov.host.GetOr(EnvOr(env, "REMOTETOUCH_SSH_HOST", "")),
      ov.user.GetOr(EnvOr(env, "REMOTETOUCH_SSH_USER", "pi")),
      ov.port.GetOr(num(EnvOr(env, "REMOTETOUCH_SSH_PORT", "22"))),
      OrElse(ov.sshKey, EnvOpt(env, "REMOTETOUCH_SSH_KEY")),
      OrElse(ov.screenWidth, EnvDim(env, "REMOTETOUCH_SCREEN_WIDTH", num)),
      OrElse(ov.screenHeight, EnvDim(env, "REMOTETOUCH_SCREEN_HEIGHT", num)),
      ov.useSudo.GetOr("REMOTETOUCH_USE_SUDO" in env && env["REMOTETOUCH_USE_SUDO"] == "true"))
  }

  /** With nothing given and an empty environment: no host, user "pi", the
      port `Number("22")`, no key, no screen size, no sudo. */
  lemma BareDefaults(num: string -> int)
    ensures DefaultConfig(NO_OVERRIDES, map[], num) == SessionConfig("", "pi", num("22"), None, None, None, false)
  {
  }

  /** When every parameter is given, the environment does not matter. */
  lemma OverridesIgnoreEnv(ov: Overrides, env1: map<string, string>, env2: map<string, string>, num: string -> int)
    requires ov.host.Some? && ov.user.Some? && ov.port.Some? && ov.sshKey.Some?
    requires ov.screenWidth.Some? && ov.screenHeight.Some? && ov.useSudo.Some?
    ensures DefaultConfig(ov, env1, num) == DefaultConfig(ov, env2, num)
  {
  }

  /** Without an override, sudo is used exactly when the variable is the
      string "true"; an empty screen variable counts as unset. */
  lemma EnvironmentRules(env: map<string, string>, num: string -> int)
    ensures var c := DefaultConfig(NO_OVERRIDES, env, num);
      && (c.useSudo <==> "REMOTETOUCH_USE_SUDO" in env && env["REMOTETOUCH_USE_SUDO"] == "true")
      && (c.screenWidth.Some? <==> "REMOTETOUCH_SCREEN_WIDTH" in env && env["REMOTETOUCH_SCREEN_WIDTH"] != "")
      && (c.screenHeight.Some? <==> "REMOTETOUCH_SCREEN_HEIGHT" in env && env["REMOTETOUCH_SCREEN_HEIGHT"] != "")
      && ("REMOTETOUCH_SSH_HOST" !in env ==> c.host == "")
  {
  }

  // ---- Tool results ----

  /** What a tool returns: its text and whether it is an error. */
  datatype ToolResult = ToolResult(text: string, isError: bool)

  /** `touch_connect` before calling `connect`: refused when the resolved
      host is empty. */
  datatype ConnectStep = Refused(result: ToolResult) | Connecting(config: SessionConfig)

  const HOST_REQUIRED := "Error: host is required. Set REMOTETOUCH_SSH_HOST or pass host parameter."

  function ConnectTool(ov: Overrides, env: map<string, string>, num: string -> int): ConnectStep {
    var config := DefaultConfig(ov, env, num);
    if config.host == "" then Refused(ToolResult(HOST_REQUIRED, true)) else Connecting(config)
  }

  /** `connect` is called exactly when the resolved host is non-empty, and
      with the resolved configuration; otherwise the result is an error. */
  lemma HostRequired(ov: Overrides, env: map<string, string>, num: string -> int)
    ensures var step := ConnectTool(ov, env, num);
      && (step.Connecting? <==> DefaultConfig(ov, env, num).host != "")
      && (step.Connecting? ==> step.config == DefaultConfig(ov, env, num))
      && (step.Refused? ==> step.result.isError)
  {
  }

  function DimText(d: Option<int>): string {
    if d.Some? then Text.IntToString(d.value) else "unknown"
  }

  /** What reading `.config` of `undefined` throws, in V8's words. */
  const UNDEFINED_CONFIG := "Cannot read properties of undefined (reading 'config')"

  /** `touch_connect` after `connect` settled; `found` is what
      `getSession(sessionId)` then returns. The `!` checks nothing, so a
      session deleted before the handshake ended makes reading its
      `config` throw, and the catch reports that as a failure. */
  function ConnectReport(config: SessionConfig, sid: string, r: SessionManager.ConnectResult,
                         found: Option<TouchSession>): ToolResult {
    match r
    case Connected =>
      if found.None? then ToolResult("Connection failed: " + UNDEFINED_CONFIG, true)
      else
        var screen := found.value.config;
        ToolResult("Connected. Session ID: " + sid + "\nHost: " + SessionManager.HostText(config)
          + "\nScreen: " + DimText(screen.screenWidth) + "x" + DimText(screen.screenHeight), false)
    case ConnectFailed(m) => ToolResult("Connection failed: " + m, true)
  }

  /** `touch_connect` reports success exactly when `connect` succeeded and
      the session is still registered. Then the text gives the session id,
      the host of the requested configuration as "user@host:port" and the
      registered session's screen as "<w>x<h>", "unknown" for an unset
      dimension. A failed `connect` reports its message, and a session gone
      by then reports the TypeError of the lookup, both after
      "Connection failed: ". */
  lemma ConnectReportText(config: SessionConfig, sid: string, r: SessionManager.ConnectResult,
                          found: Option<TouchSession>)
    ensures ConnectReport(config, sid, r, found).isError <==> r.ConnectFailed? || found.None?
    ensures r.Connected? && found.Some? ==>
      ConnectReport(config, sid, r, found).text ==
        "Connected. Session ID: " + sid + "\nHost: " + SessionManager.HostText(config)
        + "\nScreen: " + DimText(found.value.config.screenWidth) + "x" + DimText(found.value.config.screenHeight)
    ensures r.Connected? && found.None? ==>
      ConnectReport(config, sid, r, found).text == "Connection failed: " + UNDEFINED_CONFIG
    ensures r.ConnectFailed? ==> ConnectReport(config, sid, r, found).text == "Connection failed: " + r.message
  {
  }

  /** What `touch_connect` sees after `connect`: the report of the session
      the manager holds under that id, if any. */
  lemma ConnectReportFromManager(m: SessionManager.ManagerState, config: SessionConfig, sid: string,
                                 r: SessionManager.ConnectResult)
    requires SessionManager.OrderOk(m)
    ensures var rep := ConnectReport(config, sid, r, SessionManager.Lookup(m, sid));
      && (rep.isError <==> r.ConnectFailed? || sid !in m.order)
      && (r.Connected? && sid in m.order ==> !rep.isError)
  {
  }

  /** A session disconnected during its handshake, whose "ready" line was
      already on its way: `connect` still succeeds, but the session is gone
      when `touch_connect` reads it back, so the tool reports a failure. */
  lemma LateReadyReportsFailure(sid: string, config: SessionConfig, resp: DaemonResponse)
    requires resp.status == Ready
    ensures var c := SessionManager.Connect(SessionManager.EMPTY, sid, config);
      var d := SessionManager.Disconnect(c.state, sid);
      && sid in d.state.heap && SessionManager.SessionOk(d.state, sid)
      && var l := SessionManager.OnLine(d.state, sid, SessionManager.Parsed(resp));
      && c.request in l.waiters && l.waiters[c.request].Handshake? && l.waiters[c.request].session in l.heap
      && c.request in l.outcomes
      && var f := SessionManager.FinishConnect(l, c.request);
      && sid in f.connects && f.connects[sid] == SessionManager.Connected
      && SessionManager.OrderOk(f)
      && ConnectReport(config, sid, f.connects[sid], SessionManager.Lookup(f, sid))
           == ToolResult("Connection failed: " + UNDEFINED_CONFIG, true)
  {
    SessionManager.DisconnectDuringHandshake(sid, config);
    var c := SessionManager.Connect(SessionManager.EMPTY, sid, config);
    var d := SessionManager.Disconnect(c.state, sid);
    assert SessionManager.SessionOk(d.state, sid);
    SessionManager.LateReadyConnects(d.state, sid, resp);
  }

  /** A successful report opens with the session id. */
  lemma ConnectReportOpensWithId(config: SessionConfig, sid: string, s: TouchSession)
    ensures var t := ConnectReport(config, sid, SessionManager.Connected, Some(s)).text;
      |t| > 23 + |sid| && t[..23 + |sid|] == "Connected. Session ID: " + sid
  {
    var head := "Connected. Session ID: " + sid;
    assert |"Connected. Session ID: "| == 23;
    var p1 := head + "\nHost: ";
    var p2 := p1 + SessionManager.HostText(config);
    var p3 := p2 + "\nScreen: ";
    var p4 := p3 + DimText(s.config.screenWidth);
    var p5 := p4 + "x";
    var t := p5 + DimText(s.config.screenHeight);
    assert t == ConnectReport(config, sid, SessionManager.Connected, Some(s)).text;
    PrefixKept(head, "\nHost: ", |head|);
    PrefixKept(p1, SessionManager.HostText(config), |head|);
    PrefixKept(p2, "\nScreen: ", |head|);
    PrefixKept(p3, DimText(s.config.screenWidth), |head|);
    PrefixKept(p4, "x", |head|);
    PrefixKept(p5, DimText(s.config.screenHeight), |head|);
  }

  lemma PrefixKept(a: string, b: string, n: nat)
    requires n <= |a|
    ensures (a + b)[..n] == a[..n]
  {
  }

  /** A gesture tool's result: a rejected promise gives "Error: " and the
      reason, an `error` reply gives "<Name> failed: " and its message, and
      anything else the success text. */
  function GestureResult(name: string, success: string, o: SessionManager.Settlement): ToolResult {
    match o
    case Rejected(reason) => ToolResult("Error: " + reason, true)
    case Resolved(resp) =>
      if resp.status == Error then ToolResult(name + " failed: " + SessionManager.MessageText(resp.message), true)
      else ToolResult(success, false)
  }

  /** A rejected request or an `error` reply. */
  predicate Failed(o: SessionManager.Settlement) {
    o.Rejected? || o.response.status == Error
  }

  lemma ErrorIffFailure(name: string, success: string, o: SessionManager.Settlement)
    ensures GestureResult(name, success, o).isError <==> o.Rejected? || o.response.status == Error
    ensures !GestureResult(name, success, o).isError ==> GestureResult(name, success, o).text == success
  {
  }

  function Point(x: int, y: int): string {
    "(" + Text.IntToString(x) + ", " + Text.IntToString(y) + ")"
  }

  // ---- Commands built by the tools ----

  /** `touch_tap`; `now` is `Date.now()`. */
  function TapCommand(now: int, x: int, y: int, durationMs: Option<int>): DaemonCommand {
    DaemonCommand("tap-" + Text.IntToString(now), Tap, NO_ARGS.(x := Some(x), y := Some(y), durationMs := durationMs))
  }

  /** `touch_swipe`: the start point goes in `x`/`y`. */
  function SwipeCommand(now: int, x1: int, y1: int, x2: int, y2: int, durationMs: Option<int>, steps: Option<int>): DaemonCommand {
    DaemonCommand("swipe-" + Text.IntToString(now), Swipe,
      NO_ARGS.(x := Some(x1), y := Some(y1), x2 := Some(x2), y2 := Some(y2), durationMs := durationMs, steps := steps))
  }

  function LongPressCommand(now: int, x: int, y: int, durationMs: Option<int>): DaemonCommand {
    DaemonCommand("longpress-" + Text.IntToString(now), LongPress, NO_ARGS.(x := Some(x), y := Some(y), durationMs := durationMs))
  }

  function DoubleTapCommand(now: int, x: int, y: int): DaemonCommand {
    DaemonCommand("doubletap-" + Text.IntToString(now), DoubleTap, NO_ARGS.(x := Some(x), y := Some(y)))
  }

  function TapResult(x: int, y: int, o: SessionManager.Settlement): (r: ToolResult)
    ensures r.isError <==> Failed(o)
    ensures !r.isError ==> r.text == "Tapped at " + Point(x, y)
    ensures o.Resolved? && r.isError ==> r.text == "Tap failed: " + SessionManager.MessageText(o.response.message)
    ensures o.Rejected? ==> r.text == "Error: " + o.reason
  {
    GestureResult("Tap", "Tapped at " + Point(x, y), o)
  }

  function SwipeResult(x1: int, y1: int, x2: int, y2: int, o: SessionManager.Settlement): (r: ToolResult)
    ensures r.isError <==> Failed(o)
    ensures !r.isError ==> r.text == "Swiped from " + Point(x1, y1) + " to " + Point(x2, y2)
    ensures o.Resolved? && r.isError ==> r.text == "Swipe failed: " + SessionManager.MessageText(o.response.message)
    ensures o.Rejected? ==> r.text == "Error: " + o.reason
  {
    GestureResult("Swipe", "Swiped from " + Point(x1, y1) + " to " + Point(x2, y2), o)
  }

  function LongPressResult(x: int, y: int, durationMs: Option<int>, o: SessionManager.Settlement): (r: ToolResult)
    ensures r.isError <==> Failed(o)
    ensures !r.isError ==> r.text == "Long pressed at " + Point(x, y) + " for " + Text.IntToString(durationMs.GetOr(800)) + "ms"
    ensures o.Resolved? && r.isError ==> r.text == "Long press failed: " + SessionManager.MessageText(o.response.message)
    ensures o.Rejected? ==> r.text == "Error: " + o.reason
  {
    GestureResult("Long press", "Long pressed at " + Point(x, y) + " for " + Text.IntToString(durationMs.GetOr(800)) + "ms", o)
  }

  function DoubleTapResult(x: int, y: int, o: SessionManager.Settlement): (r: ToolResult)
    ensures r.isError <==> Failed(o)
    ensures !r.isError ==> r.text == "Double tapped at " + Point(x, y)
    ensures o.Resolved? && r.isError ==> r.text == "Double tap failed: " + SessionManager.MessageText(o.response.message)
    ensures o.Rejected? ==> r.text == "Error: " + o.reason
  {
    GestureResult("Double tap", "Double tapped at " + Point(x, y), o)
  }

  /** `touch_disconnect`. It never reports an error: `disconnect` returns
      at once for an unknown id, awaits a shutdown whose rejection it
      catches, and its `cleanup` swallows the errors of `end` and `kill`,
      so the `catch` of the tool is never reached. */
  function DisconnectResult(sid: string): (r: ToolResult)
    ensures !r.isError
    ensures |r.text| == |sid| + 22 && r.text[..8] == "Session " && r.text[8..8 + |sid|] == sid
    ensures r.text[8 + |sid|..] == " disconnected."
  {
    ToolResult("Session " + sid + " disconnected.", false)
  }

  function InfoLine(s: SessionManager.SessionInfo): string {
    s.id + " - " + s.host + " (" + (if s.active then "active" else "inactive") + ")"
  }

  function JoinLines(ls: seq<SessionManager.SessionInfo>): string
    requires |ls| > 0
  {
    if |ls| == 1 then InfoLine(ls[0]) else InfoLine(ls[0]) + "\n" + JoinLines(ls[1..])
  }

  /** `touch_list_sessions`. */
  function ListResult(ls: seq<SessionManager.SessionInfo>): ToolResult {
    if ls == [] then ToolResult("No active sessions.", false) else ToolResult(JoinLines(ls), false)
  }

  /** The listing starts with the first session's line, and the result is
      never an error. */
  lemma ListStartsWithFirst(ls: seq<SessionManager.SessionInfo>)
    ensures !ListResult(ls).isError
    ensures ls == [] ==> ListResult(ls).text == "No active sessions."
    ensures ls != [] ==> var t := ListResult(ls).text;
      |t| >= |InfoLine(ls[0])| && t[..|InfoLine(ls[0])|] == InfoLine(ls[0])
  {
  }

  lemma {:induction false} JoinAppend(ls: seq<SessionManager.SessionInfo>, s: SessionManager.SessionInfo)
    requires |ls| > 0
    ensures JoinLines(ls + [s]) == JoinLines(ls) + "\n" + InfoLine(s)
  {
    if |ls| == 1 {
      assert (ls + [s])[1..] == [s];
    } else {
      assert (ls + [s])[1..] == ls[1..] + [s];
      JoinAppend(ls[1..], s);
    }
  }

  /** The listing is the sessions' lines joined by newlines: one session
      lists as its own line, and each further session adds a newline and
      its line at the end. */
  lemma ListJoinsLines(ls: seq<SessionManager.SessionInfo>, s: SessionManager.SessionInfo)
    ensures ListResult([s]).text == InfoLine(s)
    ensures ls != [] ==> ListResult(ls + [s]).text == ListResult(ls).text + "\n" + InfoLine(s)
  {
    if ls != [] {
      JoinAppend(ls, s);
    }
  }

  // ---- What the engine makes of them ----

  /** The fields the engine reads from a command's line, decoded. */
  function Received(c: DaemonCommand): TouchEngine.Line {
    TouchEngine.Cmd(Some(c.id), Some(CommandTypeName(c.kind)), c.args)
  }

  /** Every gesture command a tool builds carries the coordinates its
      handler looks up, so on an initialised engine no gesture fails with a
      KeyError: for integer parameters, a tap or long press fails only for a
      negative duration, a swipe only for a negative duration with a
      positive step count, and a double tap never. The swipe's start and end points reach the engine
      as given. */
  lemma {:induction false} ToolCommandsHaveTheirFields(s: TouchEngine.EngineState, setup: TouchEngine.SetupOutcome,
      now: int, x: int, y: int, x2: int, y2: int, d: Option<int>, steps: Option<int>)
    requires s.fd.Some?
    ensures var tap := TapCommand(now, x, y, d);
      TouchEngine.Step(s, TouchEngine.Input(Received(tap), setup)).state ==
        TouchEngine.Perform(s, tap.id, Gestures.PressGesture(tap.args, s.counter, 50))
      && (Gestures.PressGesture(tap.args, s.counter, 50).error.Some? <==> d.GetOr(50) < 0)
    ensures var lp := LongPressCommand(now, x, y, d);
      TouchEngine.Step(s, TouchEngine.Input(Received(lp), setup)).state ==
        TouchEngine.Perform(s, lp.id, Gestures.PressGesture(lp.args, s.counter, 800))
      && (Gestures.PressGesture(lp.args, s.counter, 800).error.Some? <==> d.GetOr(800) < 0)
    ensures var sw := SwipeCommand(now, x, y, x2, y2, d, steps);
      var g := Gestures.SwipeGesture(sw.args, s.counter);
      && TouchEngine.Step(s, TouchEngine.Input(Received(sw), setup)).state == TouchEngine.Perform(s, sw.id, g)
      && (sw.args.x, sw.args.y, sw.args.x2, sw.args.y2) == (Some(x), Some(y), Some(x2), Some(y2))
      && (g.error.Some? <==> Gestures.SwipeSteps(sw.args) > 0 && d.GetOr(300) < 0)
    ensures var dt := DoubleTapCommand(now, x, y);
      TouchEngine.Step(s, TouchEngine.Input(Received(dt), setup)).state ==
        TouchEngine.Perform(s, dt.id, Gestures.DoubleTapGesture(dt.args, s.counter))
      && Gestures.DoubleTapGesture(dt.args, s.counter).error.None?
  {
    assert ParseCommandType("tap") == Some(Tap);
    assert ParseCommandType("long_press") == Some(LongPress);
    assert ParseCommandType("swipe") == Some(Swipe);
    assert ParseCommandType("double_tap") == Some(DoubleTap);
  }
}
