/** The session manager on the caller's side. Every asynchronous callback of
    the source (a response line, stderr data, process exit or error, a timer
    firing, the code after an `await`) is one atomic transition. Promises are
    numbered requests: `outcomes` logs how each one settled, `timers` holds
    the timer of each request that armed one, and `waiters` says which
    suspended `connect` or `disconnect` awaits a request. The pure
    transition functions say what each callback does; the class `Manager`
    performs them field by field and is proved equal to them. */
module SessionManager {
  import opened Types
  import Text

  const HANDSHAKE_TIMEOUT_MS := 15000
  const COMMAND_TIMEOUT_MS := 30000
  const SHUTDOWN_TIMEOUT_MS := 5000
  const STDIN_NOT_WRITABLE := "SSH process stdin not writable"

  /** The timer of one request: its session, its delay, and whether it can
      still fire (neither fired nor cleared). */
  datatype Timer = Timer(session: string, timeoutMs: int, armed: bool)

  /** How a request's promise settled. */
  datatype Settlement = Resolved(response: DaemonResponse) | Rejected(reason: string)

  /** The suspended code that awaits a request: the handshake of `connect`
      or the shutdown of `disconnect`, each for its session. */
  datatype Waiter = Handshake(session: string) | ShutdownWait(session: string)

  /** How a `connect` call ended: with the session id, or with an error. */
  datatype ConnectResult = Connected | ConnectFailed(message: string)

  /** A line from the engine's stdout as `JSON.parse` sees it. */
  datatype Reply = Unparseable | Parsed(response: DaemonResponse)

  /** The manager's state: the keys of the `sessions` map in insertion order;
      every session object ever created, by id (callbacks of a removed
      session still reach it); each session's stderr buffer; the requests'
      timers, outcomes and waiters; how each `connect` ended; and the next
      request number. */
  datatype ManagerState = ManagerState(
    order: seq<string>,
    heap: map<string, TouchSession>,
    stderr: map<string, string>,
    timers: map<nat, Timer>,
    outcomes: map<nat, Settlement>,
    waiters: map<nat, Waiter>,
    connects: map<string, ConnectResult>,
    nextReq: nat)

  const EMPTY := ManagerState([], map[], map[], map[], map[], map[], map[], 0)

  // ---- Well-formed states ----

  predicate Distinct(s: seq<string>) {
    forall i, j :: 0 <= i < j < |s| ==> s[i] != s[j]
  }

  predicate OrderOk(m: ManagerState) {
    (forall i :: 0 <= i < |m.order| ==> m.order[i] in m.heap) && Distinct(m.order)
  }

  /** A session knows its id, has a stderr buffer, and its pending slot, if
      occupied, holds a request of its own whose timer can still fire. */
  predicate SessionOk(m: ManagerState, sid: string)
    requires sid in m.heap
  {
    && m.heap[sid].id == sid
    && sid in m.stderr
    && (m.heap[sid].pending.Some? ==>
          var p := m.heap[sid].pending.value;
          p in m.timers && m.timers[p].session == sid && m.timers[p].armed)
  }

  /** A timer that can still fire belongs to a request not yet settled. */
  predicate TimerOk(m: ManagerState, r: nat)
    requires r in m.timers
  {
    r < m.nextReq && m.timers[r].session in m.heap && (m.timers[r].armed ==> r !in m.outcomes)
  }

  predicate Valid(m: ManagerState) {
    && OrderOk(m)
    && (forall sid :: sid in m.heap ==> SessionOk(m, sid))
    && (forall r :: r in m.timers ==> TimerOk(m, r))
    && (forall r :: r in m.outcomes ==> r < m.nextReq)
    && (forall r :: r in m.waiters ==> r < m.nextReq && m.waiters[r].session in m.heap)
  }

  lemma EmptyValid()
    ensures Valid(EMPTY)
  {
  }

  // ---- Helpers ----

  /** `sessions.delete(sid)` on the key order. */
  function Remove(order: seq<string>, sid: string): (r: seq<string>)
    ensures forall x :: x in r <==> x in order && x != sid
    ensures |r| <= |order|
  {
    if order == [] then []
    else (if order[0] == sid then [] else [order[0]]) + Remove(order[1..], sid)
  }

  lemma {:induction false} RemoveAbsent(order: seq<string>, sid: string)
    requires sid !in order
    ensures Remove(order, sid) == order
  {
    if order != [] {
      RemoveAbsent(order[1..], sid);
    }
  }

  lemma {:induction false} RemoveDistinct(order: seq<string>, sid: string)
    requires Distinct(order)
    ensures Distinct(Remove(order, sid))
  {
    if order != [] {
      RemoveDistinct(order[1..], sid);
      var rest := Remove(order[1..], sid);
      assert order[0] !in order[1..];
    }
  }

  /** Deleting any key of the order leaves the keys before it and after it,
      each in order. */
  lemma {:induction false} RemoveKeepsOrder(order: seq<string>, k: nat)
    requires Distinct(order) && k < |order|
    ensures Remove(order, order[k]) == order[..k] + order[k + 1..]
  {
    if k == 0 {
      RemoveFirst(order);
    } else {
      assert order[0] != order[k];
      assert order[1..][k - 1] == order[k];
      RemoveKeepsOrder(order[1..], k - 1);
      assert order[..k] == [order[0]] + order[1..][..k - 1];
      assert order[k + 1..] == order[1..][k..];
    }
  }

  /** Deleting the first key of the order leaves the others in order. */
  lemma RemoveFirst(order: seq<string>)
    requires |order| > 0 && Distinct(order)
    ensures Remove(order, order[0]) == order[1..]
  {
    assert order[0] !in order[1..];
    RemoveAbsent(order[1..], order[0]);
  }

  /** `cleanup(session)`: inactive, stdin ended and SIGTERM sent when there
      is a process, and the process dropped. */
  function Cleanup(s: TouchSession): (r: TouchSession)
    ensures !r.active && !r.process.present
    ensures s.process.present ==> r.process.ended && r.process.killed && !r.process.writable
    ensures !s.process.present ==> r.process == s.process
    ensures r.process.written == s.process.written
    ensures r.(active := s.active, process := s.process) == s
  {
    if s.process.present then
      s.(active := false, process := s.process.(present := false, writable := false, ended := true, killed := true))
    else s.(active := false)
  }

  /** Cleaning up twice is cleaning up once. */
  lemma CleanupIdempotent(s: TouchSession)
    ensures Cleanup(Cleanup(s)) == Cleanup(s)
  {
  }

  function SetSession(m: ManagerState, sid: string, s: TouchSession): ManagerState {
    m.(heap := m.heap[sid := s])
  }

  /** Settle a request through its slot handlers: record the outcome and
      clear its timer. */
  function Settle(m: ManagerState, r: nat, o: Settlement): ManagerState
    requires r in m.timers
  {
    m.(outcomes := m.outcomes[r := o], timers := m.timers[r := m.timers[r].(armed := false)])
  }

  /** `if (session.pending) { p = session.pending; session.pending = null;
      p.resolve/reject(...) }`. */
  function Evict(m: ManagerState, sid: string, o: Settlement): ManagerState
    requires sid in m.heap && SessionOk(m, sid)
  {
    var s := m.heap[sid];
    if s.pending.None? then m
    else Settle(SetSession(m, sid, s.(pending := None)), s.pending.value, o)
  }

  lemma {:induction false} EvictValid(m: ManagerState, sid: string, o: Settlement)
    requires Valid(m) && sid in m.heap
    ensures Valid(Evict(m, sid, o))
    ensures Evict(m, sid, o).heap[sid].pending.None?
  {
    var s := m.heap[sid];
    if s.pending.Some? {
      var p := s.pending.value;
      var m1 := SetSession(m, sid, s.(pending := None));
      var m2 := Settle(m1, p, o);
      forall x | x in m2.heap ensures SessionOk(m2, x) {
        assert SessionOk(m, x);
        if m2.heap[x].pending.Some? {
          assert x != sid;
          var q := m2.heap[x].pending.value;
          assert m.timers[q].session == x;
          assert q != p;
        }
      }
      forall r | r in m2.timers ensures TimerOk(m2, r) {
        assert TimerOk(m, r);
      }
    }
  }

  // ---- Sending ----

  /** The state after a send, and the number of its request. */
  datatype Sent = Sent(state: ManagerState, request: nat)

  /** `sendCommandRaw`: over a writable process, arm a timer, put the
      request in the slot (replacing any earlier occupant) and write one
      line; otherwise reject at once. */
  function SendRaw(m: ManagerState, sid: string, cmd: DaemonCommand, timeoutMs: int): (r: Sent)
    requires sid in m.heap
    ensures r.request == m.nextReq && r.state.nextReq == m.nextReq + 1
  {
    var req := m.nextReq;
    var s := m.heap[sid];
    if !s.process.present || !s.process.writable then
      Sent(m.(outcomes := m.outcomes[req := Rejected(STDIN_NOT_WRITABLE)], nextReq := req + 1), req)
    else
      var s1 := s.(pending := Some(req), process := s.process.(written := s.process.written + [cmd]));
      Sent(m.(timers := m.timers[req := Timer(sid, timeoutMs, true)], heap := m.heap[sid := s1], nextReq := req + 1), req)
  }

  lemma {:induction false} SendRawValid(m: ManagerState, sid: string, cmd: DaemonCommand, timeoutMs: int)
    requires Valid(m) && sid in m.heap
    ensures Valid(SendRaw(m, sid, cmd, timeoutMs).state)
  {
    var req := m.nextReq;
    var s := m.heap[sid];
    if !s.process.present || !s.process.writable {
      var m2 := m.(outcomes := m.outcomes[req := Rejected(STDIN_NOT_WRITABLE)], nextReq := req + 1);
      forall x | x in m2.heap ensures SessionOk(m2, x) {
        assert SessionOk(m, x);
      }
      forall r | r in m2.timers ensures TimerOk(m2, r) {
        assert TimerOk(m, r);
      }
    } else {
      var s1 := s.(pending := Some(req), process := s.process.(written := s.process.written + [cmd]));
      var m2 := m.(timers := m.timers[req := Timer(sid, timeoutMs, true)], heap := m.heap[sid := s1], nextReq := req + 1);
      assert SessionOk(m, sid);
      forall x | x in m2.heap ensures SessionOk(m2, x) {
        assert SessionOk(m, x);
      }
      forall r | r in m2.timers ensures TimerOk(m2, r) {
        if r != req {
          assert TimerOk(m, r);
        }
      }
    }
  }

  /** A send over a writable process writes exactly the command's line,
      takes the slot and arms a timer with the given delay; otherwise it is
      rejected with "SSH process stdin not writable" and neither the slot
      nor the process changes. Only that session changes. */
  lemma SendRawEffect(m: ManagerState, sid: string, cmd: DaemonCommand, timeoutMs: int)
    requires Valid(m) && sid in m.heap
    ensures var r := SendRaw(m, sid, cmd, timeoutMs);
      var s, s2 := m.heap[sid], r.state.heap[sid];
      && r.state.order == m.order && r.state.heap.Keys == m.heap.Keys
      && (forall x :: x in m.heap && x != sid ==> r.state.heap[x] == m.heap[x])
      && (s.process.present && s.process.writable ==>
            && s2 == s.(pending := Some(r.request), process := s.process.(written := s.process.written + [cmd]))
            && r.state.timers[r.request] == Timer(sid, timeoutMs, true)
            && r.request !in r.state.outcomes)
      && (!(s.process.present && s.process.writable) ==>
            s2 == s && r.state.outcomes[r.request] == Rejected("SSH process stdin not writable")
            && r.state.timers == m.timers)
  {
  }

  /** `sendCommand`: reject an unknown or inactive session at once,
      otherwise send with the command timeout. */
  function Send(m: ManagerState, sid: string, cmd: DaemonCommand): (r: Sent)
    requires OrderOk(m)
    ensures r.request == m.nextReq && r.state.nextReq == m.nextReq + 1
  {
    var req := m.nextReq;
    if sid !in m.order then
      Sent(m.(outcomes := m.outcomes[req := Rejected("Session not found: " + sid)], nextReq := req + 1), req)
    else if !m.heap[sid].active || !m.heap[sid].process.present then
      Sent(m.(outcomes := m.outcomes[req := Rejected("Session is not active: " + sid)], nextReq := req + 1), req)
    else SendRaw(m, sid, cmd, COMMAND_TIMEOUT_MS)
  }

  /** The guards of `sendCommand`: an unknown id and an inactive or
      process-less session are refused with their messages, and nothing is
      written and no slot is touched; a live session gets a send with the
      30000 ms timeout. */
  lemma SendGuards(m: ManagerState, sid: string, cmd: DaemonCommand)
    requires OrderOk(m)
    ensures var r := Send(m, sid, cmd);
      && (sid !in m.order ==>
           r.state == m.(outcomes := m.outcomes[m.nextReq := Rejected("Session not found: " + sid)], nextReq := m.nextReq + 1))
      && (sid in m.order && (!m.heap[sid].active || !m.heap[sid].process.present) ==>
           r.state == m.(outcomes := m.outcomes[m.nextReq := Rejected("Session is not active: " + sid)], nextReq := m.nextReq + 1))
      && (sid in m.order && m.heap[sid].active && m.heap[sid].process.present ==>
           r == SendRaw(m, sid, cmd, 30000))
  {
  }

  lemma SendValid(m: ManagerState, sid: string, cmd: DaemonCommand)
    requires Valid(m)
    ensures Valid(Send(m, sid, cmd).state)
  {
    if sid in m.order && m.heap[sid].active && m.heap[sid].process.present {
      SendRawValid(m, sid, cmd, COMMAND_TIMEOUT_MS);
    } else {
      var m2 := Send(m, sid, cmd).state;
      forall x | x in m2.heap ensures SessionOk(m2, x) {
        assert SessionOk(m, x);
      }
      forall r | r in m2.timers ensures TimerOk(m2, r) {
        assert TimerOk(m, r);
      }
    }
  }

  // ---- Process callbacks ----

  /** The `line` callback: a line that does not parse changes nothing; a
      parsed one resolves whatever request holds the slot, without looking
      at its id, and is dropped when the slot is empty. */
  function OnLine(m: ManagerState, sid: string, line: Reply): ManagerState
    requires sid in m.heap && SessionOk(m, sid)
  {
    match line
    case Unparseable => m
    case Parsed(resp) => Evict(m, sid, Resolved(resp))
  }

  lemma LineEffect(m: ManagerState, sid: string, line: Reply)
    requires sid in m.heap && SessionOk(m, sid)
    ensures var m2 := OnLine(m, sid, line);
      var p := m.heap[sid].pending;
      && (line.Unparseable? ==> m2 == m)
      && (line.Parsed? && p.None? ==> m2 == m)
      && (line.Parsed? && p.Some? ==>
            m2.heap[sid] == m.heap[sid].(pending := None)
            && m2.outcomes == m.outcomes[p.value := Resolved(line.response)]
            && !m2.timers[p.value].armed)
  {
  }

  /** `stderrBuf += chunk`. */
  function OnStderr(m: ManagerState, sid: string, chunk: string): ManagerState
    requires sid in m.stderr
  {
    m.(stderr := m.stderr[sid := m.stderr[sid] + chunk])
  }

  /** `${code}` of an exit code that may be null. */
  function CodeText(code: Option<int>): string {
    if code.None? then "null" else Text.IntToString(code.value)
  }

  function ExitMessage(code: Option<int>, stderr: string): string {
    "SSH process exited with code " + CodeText(code) + ". stderr: " + Text.Trim(stderr)
  }

  /** The `close` callback. */
  function OnClose(m: ManagerState, sid: string, code: Option<int>): ManagerState
    requires Valid(m) && sid in m.heap
  {
    var m1 := SetSession(m, sid, m.heap[sid].(active := false));
    assert SessionOk(m1, sid) by { assert SessionOk(m, sid); }
    Evict(m1, sid, Rejected(ExitMessage(code, m.stderr[sid])))
  }

  /** The `error` callback. */
  function OnError(m: ManagerState, sid: string, message: string): ManagerState
    requires Valid(m) && sid in m.heap
  {
    var m1 := SetSession(m, sid, m.heap[sid].(active := false));
    assert SessionOk(m1, sid) by { assert SessionOk(m, sid); }
    Evict(m1, sid, Rejected(message))
  }

  lemma {:induction false} DeactivateValid(m: ManagerState, sid: string)
    requires Valid(m) && sid in m.heap
    ensures Valid(SetSession(m, sid, m.heap[sid].(active := false)))
  {
    var m1 := SetSession(m, sid, m.heap[sid].(active := false));
    forall x | x in m1.heap ensures SessionOk(m1, x) {
      assert SessionOk(m, x);
    }
    forall r | r in m1.timers ensures TimerOk(m1, r) {
      assert TimerOk(m, r);
    }
  }

  /** Exit and error make the session inactive and empty its slot; a request
      that held the slot is rejected, on exit with the code and the trimmed
      stderr in the message. */
  lemma {:induction false} CloseEffect(m: ManagerState, sid: string, code: Option<int>, message: string)
    requires Valid(m) && sid in m.heap
    ensures var m2 := OnClose(m, sid, code);
      var p := m.heap[sid].pending;
      && Valid(m2) && !m2.heap[sid].active && m2.heap[sid].pending.None?
      && m2.heap[sid].process == m.heap[sid].process
      && (p.Some? ==> m2.outcomes == m.outcomes[p.value := Rejected(
            "SSH process exited with code " + CodeText(code) + ". stderr: " + Text.Trim(m.stderr[sid]))])
      && (p.None? ==> m2.outcomes == m.outcomes)
    ensures var m3 := OnError(m, sid, message);
      var p := m.heap[sid].pending;
      && Valid(m3) && !m3.heap[sid].active && m3.heap[sid].pending.None?
      && (p.Some? ==> m3.outcomes == m.outcomes[p.value := Rejected(message)])
      && (p.None? ==> m3.outcomes == m.outcomes)
  {
    DeactivateValid(m, sid);
    var m1 := SetSession(m, sid, m.heap[sid].(active := false));
    EvictValid(m1, sid, Rejected(ExitMessage(code, m.stderr[sid])));
    EvictValid(m1, sid, Rejected(message));
  }

  /** Stdin stops accepting writes (the stream was ended or broke). */
  function OnStdinClosed(m: ManagerState, sid: string): ManagerState
    requires sid in m.heap
  {
    var s := m.heap[sid];
    SetSession(m, sid, s.(process := s.process.(writable := false)))
  }

  function TimeoutMessage(ms: int): string {
    "Command timed out after " + Text.IntToString(ms) + "ms"
  }

  /** A timer fires. A cleared or fired timer does nothing. Otherwise it
      disarms and, when the slot is occupied, empties it, whichever request
      now holds it, and rejects its own request. */
  function OnTimeout(m: ManagerState, r: nat): ManagerState
    requires r in m.timers && m.timers[r].session in m.heap
  {
    var t := m.timers[r];
    if !t.armed then m
    else
      var m1 := m.(timers := m.timers[r := t.(armed := false)]);
      var s := m.heap[t.session];
      if s.pending.None? then m1
      else SetSession(m1, t.session, s.(pending := None)).(outcomes := m.outcomes[r := Rejected(TimeoutMessage(t.timeoutMs))])
  }

  lemma {:induction false} TimeoutValid(m: ManagerState, r: nat)
    requires Valid(m) && r in m.timers
    ensures Valid(OnTimeout(m, r))
  {
    assert TimerOk(m, r);
    var t := m.timers[r];
    if t.armed {
      if m.heap[t.session].pending.None? {
        TimeoutIdleValid(m, r);
      } else {
        TimeoutBusyValid(m, r);
      }
    }
  }

  /** A live timer fires while its session's slot is empty. */
  lemma {:induction false} TimeoutIdleValid(m: ManagerState, r: nat)
    requires Valid(m) && r in m.timers && m.timers[r].armed
    requires m.timers[r].session in m.heap && m.heap[m.timers[r].session].pending.None?
    ensures Valid(m.(timers := m.timers[r := m.timers[r].(armed := false)]))
  {
    var m1 := m.(timers := m.timers[r := m.timers[r].(armed := false)]);
    forall q | q in m1.timers ensures TimerOk(m1, q) {
      assert TimerOk(m, q);
    }
    forall x | x in m1.heap ensures SessionOk(m1, x) {
      assert SessionOk(m, x);
    }
  }

  /** A live timer fires while some request holds its session's slot. */
  lemma {:induction false} TimeoutBusyValid(m: ManagerState, r: nat)
    requires Valid(m) && r in m.timers && m.timers[r].armed
    requires m.timers[r].session in m.heap && m.heap[m.timers[r].session].pending.Some?
    ensures var t := m.timers[r];
      var s := m.heap[t.session];
      Valid(m.(timers := m.timers[r := t.(armed := false)], heap := m.heap[t.session := s.(pending := None)],
               outcomes := m.outcomes[r := Rejected(TimeoutMessage(t.timeoutMs))]))
  {
    var t := m.timers[r];
    var sid := t.session;
    var m2 := m.(timers := m.timers[r := t.(armed := false)], heap := m.heap[sid := m.heap[sid].(pending := None)],
                 outcomes := m.outcomes[r := Rejected(TimeoutMessage(t.timeoutMs))]);
    assert TimerOk(m, r);
    forall q | q in m2.timers ensures TimerOk(m2, q) {
      assert TimerOk(m, q);
    }
    forall x | x in m2.heap ensures SessionOk(m2, x) {
      assert SessionOk(m, x);
      if x != sid && m2.heap[x].pending.Some? {
        assert m.timers[m2.heap[x].pending.value].session == x;
      }
    }
  }

  lemma TimeoutEffect(m: ManagerState, r: nat)
    requires Valid(m) && r in m.timers
    ensures var t := m.timers[r];
      var m2 := OnTimeout(m, r);
      && (!t.armed ==> m2 == m)
      && (t.armed ==> !m2.timers[r].armed && m2.order == m.order)
      && (t.armed && m.heap[t.session].pending.None? ==> r !in m2.outcomes && m2.heap == m.heap)
      && (t.armed && m.heap[t.session].pending.Some? ==>
            m2.heap[t.session] == m.heap[t.session].(pending := None)
            && m2.outcomes == m.outcomes[r := Rejected("Command timed out after " + Text.IntToString(t.timeoutMs) + "ms")])
  {
    assert TimerOk(m, r);
  }

  // ---- Settling once ----

  /** Every outcome of `a` is in `b`, unchanged. */
  predicate Keeps(a: map<nat, Settlement>, b: map<nat, Settlement>) {
    forall r :: r in a ==> r in b && b[r] == a[r]
  }

  /** No callback settles a promise a second time: whatever had settled
      keeps its outcome. (A JavaScript promise ignores a second settle; the
      model shows that none is attempted.) */
  lemma {:induction false} SettleOnce(m: ManagerState, sid: string, r: nat, line: Reply,
      code: Option<int>, message: string, cmd: DaemonCommand)
    requires Valid(m) && sid in m.heap && r in m.timers
    ensures Keeps(m.outcomes, OnLine(m, sid, line).outcomes)
    ensures Keeps(m.outcomes, OnClose(m, sid, code).outcomes)
    ensures Keeps(m.outcomes, OnError(m, sid, message).outcomes)
    ensures Keeps(m.outcomes, OnTimeout(m, r).outcomes)
    ensures Keeps(m.outcomes, Send(m, sid, cmd).state.outcomes)
  {
    LineKeeps(m, sid, line);
    CloseKeeps(m, sid, code, message);
    TimeoutKeeps(m, r);
    SendKeeps(m, sid, cmd);
  }

  /** Emptying the slot settles only the request that held it. */
  lemma EvictKeeps(m: ManagerState, sid: string, o: Settlement)
    requires sid in m.heap && SessionOk(m, sid)
    requires m.heap[sid].pending.Some? ==> m.heap[sid].pending.value !in m.outcomes
    ensures Keeps(m.outcomes, Evict(m, sid, o).outcomes)
  {
  }

  lemma {:induction false} LineKeeps(m: ManagerState, sid: string, line: Reply)
    requires Valid(m) && sid in m.heap
    ensures Keeps(m.outcomes, OnLine(m, sid, line).outcomes)
  {
    assert SessionOk(m, sid);
    var p := m.heap[sid].pending;
    if p.Some? {
      assert TimerOk(m, p.value);
    }
    if line.Parsed? {
      EvictKeeps(m, sid, Resolved(line.response));
    }
  }

  /** The `close` callback touches only its own session. */
  lemma CloseFrame(m: ManagerState, sid: string, code: Option<int>)
    requires Valid(m) && sid in m.heap
    ensures var m2 := OnClose(m, sid, code);
      && m2.order == m.order && m2.waiters == m.waiters && m2.heap.Keys == m.heap.Keys
      && (forall x :: x in m.heap && x != sid ==> m2.heap[x] == m.heap[x])
  {
    assert SessionOk(m, sid);
  }

  lemma {:induction false} CloseKeeps(m: ManagerState, sid: string, code: Option<int>, message: string)
    requires Valid(m) && sid in m.heap
    ensures Keeps(m.outcomes, OnClose(m, sid, code).outcomes)
    ensures Keeps(m.outcomes, OnError(m, sid, message).outcomes)
  {
    assert SessionOk(m, sid);
    var p := m.heap[sid].pending;
    if p.Some? {
      assert TimerOk(m, p.value);
    }
    var m1 := SetSession(m, sid, m.heap[sid].(active := false));
    EvictKeeps(m1, sid, Rejected(ExitMessage(code, m.stderr[sid])));
    EvictKeeps(m1, sid, Rejected(message));
  }

  lemma {:induction false} TimeoutKeeps(m: ManagerState, r: nat)
    requires Valid(m) && r in m.timers
    ensures Keeps(m.outcomes, OnTimeout(m, r).outcomes)
  {
    assert TimerOk(m, r);
  }

  lemma {:induction false} SendKeeps(m: ManagerState, sid: string, cmd: DaemonCommand)
    requires Valid(m)
    ensures Keeps(m.outcomes, Send(m, sid, cmd).state.outcomes)
  {
  }

  /** The latest caller wins the slot: a second send over a writable
      process takes the slot, and the first request stays unsettled with
      its timer still armed, so only that timer can settle it. */
  lemma {:induction false} SlotTakeover(m: ManagerState, sid: string, a: DaemonCommand, b: DaemonCommand, ms: int)
    requires Valid(m) && sid in m.heap && m.heap[sid].process.present && m.heap[sid].process.writable
    ensures var first := SendRaw(m, sid, a, ms);
      var second := SendRaw(first.state, sid, b, ms);
      && second.state.heap[sid].pending == Some(second.request)
      && first.request != second.request
      && first.request !in second.state.outcomes
      && second.state.timers[first.request].armed
      && second.state.heap[sid].process.written == m.heap[sid].process.written + [a, b]
  {
    SendRawEffect(m, sid, a, ms);
    var first := SendRaw(m, sid, a, ms);
    SendRawValid(m, sid, a, ms);
    SendRawEffect(first.state, sid, b, ms);
  }

  // ---- Connecting ----

  function InitCommand(sid: string, config: SessionConfig): DaemonCommand {
    DaemonCommand("init-" + sid, Init, NO_ARGS.(screenWidth := config.screenWidth, screenHeight := config.screenHeight))
  }

  /** `connect` up to its `await`: register the session, spawn the process
      (writable, nothing written), and send `init` under the handshake
      timeout. `sid` is the fresh UUID. */
  function Connect(m: ManagerState, sid: string, config: SessionConfig): Sent
    requires sid !in m.heap
  {
    var s := TouchSession(sid, config, Proc(true, true, [], false, false), false, None);
    var m1 := m.(order := m.order + [sid], heap := m.heap[sid := s], stderr := m.stderr[sid := ""]);
    var sent := SendRaw(m1, sid, InitCommand(sid, config), HANDSHAKE_TIMEOUT_MS);
    Sent(sent.state.(waiters := sent.state.waiters[sent.request := Handshake(sid)]), sent.request)
  }

  /** During the handshake the session is registered and inactive, its
      process has received exactly the `init` line with id "init-" + id and
      the configured screen size, and the slot holds the handshake request
      under a 15000 ms timer. */
  lemma {:induction false} ConnectEffect(m: ManagerState, sid: string, config: SessionConfig)
    requires Valid(m) && sid !in m.heap
    ensures var c := Connect(m, sid, config);
      var s := c.state.heap[sid];
      && Valid(c.state)
      && c.state.order == m.order + [sid]
      && !s.active && s.process.present && s.pending == Some(c.request)
      && s.process.written == [DaemonCommand("init-" + sid, Init,
           NO_ARGS.(screenWidth := config.screenWidth, screenHeight := config.screenHeight))]
      && c.state.timers[c.request] == Timer(sid, 15000, true)
      && c.state.waiters[c.request] == Handshake(sid)
  {
    var s := TouchSession(sid, config, Proc(true, true, [], false, false), false, None);
    var m1 := m.(order := m.order + [sid], heap := m.heap[sid := s], stderr := m.stderr[sid := ""]);
    RegisterValid(m, s);
    SendRawValid(m1, sid, InitCommand(sid, config), HANDSHAKE_TIMEOUT_MS);
    SendRawEffect(m1, sid, InitCommand(sid, config), HANDSHAKE_TIMEOUT_MS);
    var sent := SendRaw(m1, sid, InitCommand(sid, config), HANDSHAKE_TIMEOUT_MS);
    WaitValid(sent.state, sent.request, Handshake(sid));
  }

  /** Registering a fresh, idle session keeps the state well formed. */
  lemma {:induction false} RegisterValid(m: ManagerState, s: TouchSession)
    requires Valid(m) && s.id !in m.heap && s.pending.None?
    ensures Valid(m.(order := m.order + [s.id], heap := m.heap[s.id := s], stderr := m.stderr[s.id := ""]))
  {
    var sid := s.id;
    var m1 := m.(order := m.order + [sid], heap := m.heap[sid := s], stderr := m.stderr[sid := ""]);
    forall i | 0 <= i < |m1.order| ensures m1.order[i] in m1.heap {
      if i < |m.order| {
        assert m1.order[i] == m.order[i];
      }
    }
    assert sid !in m.order;
    forall x | x in m1.heap ensures SessionOk(m1, x) {
      if x != sid {
        assert SessionOk(m, x);
      }
    }
    forall r | r in m1.timers ensures TimerOk(m1, r) {
      assert TimerOk(m, r);
    }
  }

  function MessageText(message: Option<string>): string {
    if message.None? then "undefined" else message.value
  }

  /** The `catch` of `connect`: clean up, drop the session, and fail with
      "Failed to connect to " + host + ": " + the reason. */
  function FailConnect(m: ManagerState, sid: string, reason: string): ManagerState
    requires sid in m.heap
  {
    var s := m.heap[sid];
    SetSession(m, sid, Cleanup(s)).(order := Remove(m.order, sid),
      connects := m.connects[sid := ConnectFailed("Failed to connect to " + s.config.host + ": " + reason)])
  }

  /** `connect` after its `await`. A reply whose status is not "error" makes
      the session active. An error reply cleans up (twice: once before the
      `throw`, once in the `catch`) and fails with the daemon's message; a
      rejection fails with its reason. */
  function FinishConnect(m: ManagerState, r: nat): ManagerState
    requires r in m.waiters && m.waiters[r].Handshake? && m.waiters[r].session in m.heap && r in m.outcomes
  {
    var sid := m.waiters[r].session;
    var m1 := m.(waiters := m.waiters - {r});
    var s := m.heap[sid];
    match m.outcomes[r]
    case Resolved(resp) =>
      if resp.status != Error then
        SetSession(m1, sid, s.(active := true)).(connects := m.connects[sid := Connected])
      else
        FailConnect(SetSession(m1, sid, Cleanup(s)), sid, "Daemon init failed: " + MessageText(resp.message))
    case Rejected(reason) => FailConnect(m1, sid, reason)
  }

  /** Cleaning a session up and dropping it from the map keeps the state
      well formed. */
  lemma {:induction false} DropValid(m: ManagerState, sid: string, s: TouchSession)
    requires Valid(m) && sid in m.heap
    requires s.id == sid && (s.pending.Some? ==> s.pending == m.heap[sid].pending)
    ensures Valid(SetSession(m, sid, s).(order := Remove(m.order, sid)))
  {
    var m2 := SetSession(m, sid, s).(order := Remove(m.order, sid));
    RemoveDistinct(m.order, sid);
    forall i | 0 <= i < |m2.order| ensures m2.order[i] in m2.heap {
      assert m2.order[i] in m.order;
    }
    forall x | x in m2.heap ensures SessionOk(m2, x) {
      assert SessionOk(m, x);
    }
    forall q | q in m2.timers ensures TimerOk(m2, q) {
      assert TimerOk(m, q);
    }
  }

  /** Editing a session's flags or process, keeping its id and its slot,
      keeps the state well formed. */
  lemma {:induction false} EditValid(m: ManagerState, sid: string, s: TouchSession)
    requires Valid(m) && sid in m.heap
    requires s.id == sid && s.pending == m.heap[sid].pending
    ensures Valid(SetSession(m, sid, s))
  {
    var m2 := SetSession(m, sid, s);
    forall x | x in m2.heap ensures SessionOk(m2, x) {
      assert SessionOk(m, x);
    }
    forall q | q in m2.timers ensures TimerOk(m2, q) {
      assert TimerOk(m, q);
    }
  }

  lemma {:induction false} UnwaitValid(m: ManagerState, r: nat)
    requires Valid(m)
    ensures Valid(m.(waiters := m.waiters - {r}))
  {
    var m1 := m.(waiters := m.waiters - {r});
    forall x | x in m1.heap ensures SessionOk(m1, x) {
      assert SessionOk(m, x);
    }
    forall q | q in m1.timers ensures TimerOk(m1, q) {
      assert TimerOk(m, q);
    }
  }
  /** Recording that a suspended call awaits request `r` keeps the state
      well formed. */
  lemma {:induction false} WaitValid(m: ManagerState, r: nat, w: Waiter)
    requires Valid(m) && r < m.nextReq && w.session in m.heap
    ensures Valid(m.(waiters := m.waiters[r := w]))
  {
    var m1 := m.(waiters := m.waiters[r := w]);
    forall x | x in m1.heap ensures SessionOk(m1, x) {
      assert SessionOk(m, x);
    }
    forall q | q in m1.timers ensures TimerOk(m1, q) {
      assert TimerOk(m, q);
    }
  }


  /** The end of a handshake. A reply whose status is not "error" leaves the
      session registered and active. Otherwise the session is out of the
      map, inactive and without a process, and `connect` fails with
      "Failed to connect to <host>: " followed by "Daemon init failed: " and
      the daemon's message, or by the rejection's reason. */
  lemma {:induction false} FinishConnectEffect(m: ManagerState, r: nat)
    requires Valid(m)
    requires r in m.waiters && m.waiters[r].Handshake? && r in m.outcomes
    ensures var sid := m.waiters[r].session;
      var m2 := FinishConnect(m, r);
      var prefix := "Failed to connect to " + m.heap[sid].config.host + ": ";
      var o := m.outcomes[r];
      && Valid(m2)
      && (o.Resolved? && o.response.status != Error ==>
            m2.connects[sid] == Connected && m2.heap[sid].active && m2.order == m.order)
      && (o.Resolved? && o.response.status == Error ==>
            m2.connects[sid] == ConnectFailed(prefix + "Daemon init failed: " + MessageText(o.response.message)))
      && (o.Rejected? ==> m2.connects[sid] == ConnectFailed(prefix + o.reason))
      && (!(o.Resolved? && o.response.status != Error) ==>
            sid !in m2.order && !m2.heap[sid].active && !m2.heap[sid].process.present)
  {
    var o := m.outcomes[r];
    if o.Resolved? && o.response.status != Error {
      HandshakeAccepted(m, r);
    } else if o.Resolved? {
      HandshakeRefused(m, r);
    } else {
      HandshakeBroken(m, r);
    }
  }

  lemma {:induction false} HandshakeAccepted(m: ManagerState, r: nat)
    requires Valid(m)
    requires r in m.waiters && m.waiters[r].Handshake? && r in m.outcomes
    requires m.outcomes[r].Resolved? && m.outcomes[r].response.status != Error
    ensures var sid := m.waiters[r].session;
      var m2 := FinishConnect(m, r);
      Valid(m2) && m2.connects[sid] == Connected && m2.heap[sid].active && m2.order == m.order
  {
    var sid := m.waiters[r].session;
    var m1 := m.(waiters := m.waiters - {r});
    UnwaitValid(m, r);
    assert SessionOk(m, sid);
    EditValid(m1, sid, m.heap[sid].(active := true));
  }

  lemma {:induction false} HandshakeRefused(m: ManagerState, r: nat)
    requires Valid(m)
    requires r in m.waiters && m.waiters[r].Handshake? && r in m.outcomes
    requires m.outcomes[r].Resolved? && m.outcomes[r].response.status == Error
    ensures var sid := m.waiters[r].session;
      var m2 := FinishConnect(m, r);
      && Valid(m2)
      && m2.connects[sid] == ConnectFailed("Failed to connect to " + m.heap[sid].config.host + ": "
           + "Daemon init failed: " + MessageText(m.outcomes[r].response.message))
      && sid !in m2.order && !m2.heap[sid].active && !m2.heap[sid].process.present
  {
    var sid := m.waiters[r].session;
    var s := m.heap[sid];
    var m1 := m.(waiters := m.waiters - {r});
    UnwaitValid(m, r);
    assert SessionOk(m, sid);
    EditValid(m1, sid, Cleanup(s));
    var once := SetSession(m1, sid, Cleanup(s));
    DropValid(once, sid, Cleanup(Cleanup(s)));
    assert once.heap[sid].config == s.config;
    assert FinishConnect(m, r) == FailConnect(once, sid, "Daemon init failed: " + MessageText(m.outcomes[r].response.message));
  }

  lemma {:induction false} HandshakeBroken(m: ManagerState, r: nat)
    requires Valid(m)
    requires r in m.waiters && m.waiters[r].Handshake? && r in m.outcomes
    requires m.outcomes[r].Rejected?
    ensures var sid := m.waiters[r].session;
      var m2 := FinishConnect(m, r);
      && Valid(m2)
      && m2.connects[sid] == ConnectFailed("Failed to connect to " + m.heap[sid].config.host + ": " + m.outcomes[r].reason)
      && sid !in m2.order && !m2.heap[sid].active && !m2.heap[sid].process.present
  {
    var sid := m.waiters[r].session;
    UnwaitValid(m, r);
    assert SessionOk(m, sid);
    DropValid(m.(waiters := m.waiters - {r}), sid, Cleanup(m.heap[sid]));
  }

  // ---- Disconnecting ----

  function ShutdownCommand(sid: string): DaemonCommand {
    DaemonCommand("shutdown-" + sid, Shutdown, NO_ARGS)
  }

  /** Clean up a session and delete it from the map. */
  function Drop(m: ManagerState, sid: string): ManagerState
    requires sid in m.heap
  {
    SetSession(m, sid, Cleanup(m.heap[sid])).(order := Remove(m.order, sid))
  }

  /** The state after starting a `disconnect`, and the shutdown request it
      awaits, if it sent one. */
  datatype Started = Started(state: ManagerState, request: Option<nat>)

  /** `disconnect` up to its `await`: an unknown id does nothing; an active
      session with a process is sent `shutdown` under a 5000 ms timer;
      any other session is cleaned up and removed at once. */
  function Disconnect(m: ManagerState, sid: string): Started
    requires OrderOk(m)
  {
    if sid !in m.order then Started(m, None)
    else
      var s := m.heap[sid];
      if s.active && s.process.present then
        var sent := SendRaw(m, sid, ShutdownCommand(sid), SHUTDOWN_TIMEOUT_MS);
        Started(sent.state.(waiters := sent.state.waiters[sent.request := ShutdownWait(sid)]), Some(sent.request))
      else Started(Drop(m, sid), None)
  }

  /** Disconnecting a session whose handshake is still out drops it at
      once, since it is not active yet, but leaves the handshake request
      holding its slot and `connect` awaiting it. */
  lemma {:induction false} DisconnectDuringHandshake(sid: string, config: SessionConfig)
    ensures var c := Connect(EMPTY, sid, config);
      var d := Disconnect(c.state, sid).state;
      && Valid(d) && sid in d.heap && sid !in d.order
      && d.heap[sid].pending == Some(c.request)
      && c.request in d.waiters && d.waiters[c.request] == Handshake(sid)
  {
    EmptyValid();
    ConnectEffect(EMPTY, sid, config);
    var c := Connect(EMPTY, sid, config);
    assert c.state.order == [sid];
    var s := c.state.heap[sid];
    assert SessionOk(c.state, sid);
    DropValid(c.state, sid, Cleanup(s));
    assert Disconnect(c.state, sid).state == Drop(c.state, sid);
    assert Remove([sid], sid) == [];
  }

  /** A reply that is not an error, reaching a session already dropped
      while `connect` awaits its handshake: `connect` still succeeds,
      though the session is no longer registered. */
  lemma {:induction false} LateReadyConnects(m: ManagerState, sid: string, resp: DaemonResponse)
    requires Valid(m) && sid in m.heap && SessionOk(m, sid) && sid !in m.order
    requires m.heap[sid].pending.Some? && m.heap[sid].pending.value in m.waiters
    requires m.waiters[m.heap[sid].pending.value] == Handshake(sid) && resp.status != Error
    ensures var r := m.heap[sid].pending.value;
      var l := OnLine(m, sid, Parsed(resp));
      && r in l.waiters && l.waiters[r] == Handshake(sid) && sid in l.heap && r in l.outcomes
      && var f := FinishConnect(l, r);
      && sid in f.connects && f.connects[sid] == Connected && OrderOk(f) && sid !in f.order
  {
    LineEffect(m, sid, Parsed(resp));
  }

  /** `disconnect` after its `await`, whatever the shutdown's fate. */
  function FinishDisconnect(m: ManagerState, r: nat): ManagerState
    requires r in m.waiters && m.waiters[r].ShutdownWait? && m.waiters[r].session in m.heap && r in m.outcomes
  {
    Drop(m.(waiters := m.waiters - {r}), m.waiters[r].session)
  }

  /** An unknown id changes nothing. An active session with a process is
      sent `shutdown` (id "shutdown-" + id) under a 5000 ms timer, unless its
      stdin no longer accepts writes, in which case the request is rejected
      at once; either way `disconnect` awaits it and the session stays
      registered. Any other session is cleaned up and removed at once. Only
      that session changes. */
  lemma {:induction false} DisconnectEffect(m: ManagerState, sid: string)
    requires Valid(m)
    ensures var d := Disconnect(m, sid);
      && Valid(d.state)
      && d.state.heap.Keys == m.heap.Keys
      && (forall x :: x in m.heap && x != sid ==> d.state.heap[x] == m.heap[x])
      && (sid !in m.order ==> d == Started(m, None))
      && (sid in m.order && m.heap[sid].active && m.heap[sid].process.present ==>
            && d.request == Some(m.nextReq)
            && d.state.order == m.order
            && d.state.waiters[m.nextReq] == ShutdownWait(sid)
            && (m.heap[sid].process.writable ==>
                  && d.state.heap[sid].process.written == m.heap[sid].process.written + [ShutdownCommand(sid)]
                  && d.state.heap[sid].pending == Some(m.nextReq)
                  && d.state.timers[m.nextReq] == Timer(sid, 5000, true)
                  && m.nextReq !in d.state.outcomes)
            && (!m.heap[sid].process.writable ==>
                  && d.state.heap[sid] == m.heap[sid]
                  && d.state.outcomes[m.nextReq] == Rejected("SSH process stdin not writable")))
      && (sid in m.order && !(m.heap[sid].active && m.heap[sid].process.present) ==>
            && d.request.None?
            && d.state.order == Remove(m.order, sid)
            && d.state.heap[sid] == Cleanup(m.heap[sid])
            && !d.state.heap[sid].active && !d.state.heap[sid].process.present)
  {
    if sid in m.order {
      var s := m.heap[sid];
      assert SessionOk(m, sid);
      if s.active && s.process.present {
        ShutdownSent(m, sid);
      } else {
        DropValid(m, sid, Cleanup(s));
      }
    }
  }

  /** The branch of `disconnect` that sends `shutdown`. */
  lemma {:induction false} ShutdownSent(m: ManagerState, sid: string)
    requires Valid(m) && sid in m.heap
    ensures var sent := SendRaw(m, sid, ShutdownCommand(sid), SHUTDOWN_TIMEOUT_MS);
      var d := sent.state.(waiters := sent.state.waiters[sent.request := ShutdownWait(sid)]);
      && Valid(d)
      && sent.request == m.nextReq
      && d.heap.Keys == m.heap.Keys
      && (forall x :: x in m.heap && x != sid ==> d.heap[x] == m.heap[x])
      && d.order == m.order
      && (m.heap[sid].process.present && m.heap[sid].process.writable ==>
            && d.heap[sid].process.written == m.heap[sid].process.written + [ShutdownCommand(sid)]
            && d.heap[sid].pending == Some(m.nextReq)
            && d.timers[m.nextReq] == Timer(sid, 5000, true)
            && m.nextReq !in d.outcomes)
      && (!(m.heap[sid].process.present && m.heap[sid].process.writable) ==>
            d.heap[sid] == m.heap[sid] && d.outcomes[m.nextReq] == Rejected("SSH process stdin not writable"))
  {
    SendRawValid(m, sid, ShutdownCommand(sid), SHUTDOWN_TIMEOUT_MS);
    SendRawEffect(m, sid, ShutdownCommand(sid), SHUTDOWN_TIMEOUT_MS);
    var sent := SendRaw(m, sid, ShutdownCommand(sid), SHUTDOWN_TIMEOUT_MS);
    WaitValid(sent.state, sent.request, ShutdownWait(sid));
  }

  lemma {:induction false} FinishDisconnectEffect(m: ManagerState, r: nat)
    requires Valid(m) && r in m.waiters && m.waiters[r].ShutdownWait? && r in m.outcomes
    ensures var sid := m.waiters[r].session;
      var m2 := FinishDisconnect(m, r);
      && Valid(m2) && sid !in m2.order && !m2.heap[sid].active && !m2.heap[sid].process.present
      && m2.heap[sid] == Cleanup(m.heap[sid])
      && (m.heap[sid].process.present ==> m2.heap[sid].process.ended && m2.heap[sid].process.killed)
  {
    var sid := m.waiters[r].session;
    var m1 := m.(waiters := m.waiters - {r});
    assert Valid(m1) by {
      forall x | x in m1.heap ensures SessionOk(m1, x) {
        assert SessionOk(m, x);
      }
      forall q | q in m1.timers ensures TimerOk(m1, q) {
        assert TimerOk(m, q);
      }
    }
    assert SessionOk(m, sid);
    DropValid(m1, sid, Cleanup(m.heap[sid]));
  }

  // ---- Queries ----

  /** One entry of `listSessions`. */
  datatype SessionInfo = SessionInfo(id: string, host: string, active: bool)

  function HostText(c: SessionConfig): string {
    c.user + "@" + c.host + ":" + Text.IntToString(c.port)
  }

  function Info(s: TouchSession): SessionInfo {
    SessionInfo(s.id, HostText(s.config), s.active)
  }

  /** `listSessions` over the first `n` keys. */
  function Listing(order: seq<string>, heap: map<string, TouchSession>, n: nat): (r: seq<SessionInfo>)
    requires n <= |order| && forall i :: 0 <= i < |order| ==> order[i] in heap
    ensures |r| == n
    ensures forall i :: 0 <= i < n ==> r[i] == Info(heap[order[i]])
  {
    if n == 0 then [] else Listing(order, heap, n - 1) + [Info(heap[order[n - 1]])]
  }

  /** `getSession`. */
  function Lookup(m: ManagerState, sid: string): (r: Option<TouchSession>)
    requires OrderOk(m)
    ensures r.Some? <==> sid in m.order
    ensures r.Some? ==> r.value == m.heap[sid]
  {
    if sid in m.order then Some(m.heap[sid]) else None
  }

  /** What the engine does with one `shutdown` sent by `disconnectAll`: it
      answers, the process exits, or nothing comes back before the timer. */
  datatype ShutdownFate = Answered(response: DaemonResponse) | Exited(code: Option<int>) | NoAnswer

  /** What `disconnect` leaves of session `sid`, first `before`: inactive,
      without a process, and its stdin log grown by the `shutdown` request
      exactly when it was active with a writable process. */
  predicate ShutDown(sid: string, before: TouchSession, after: TouchSession) {
    && !after.active && !after.process.present
    && after.process.written == before.process.written +
         (if before.active && before.process.present && before.process.writable then [ShutdownCommand(sid)] else [])
  }

  /** The first `n` sessions of `ids` went from `h0` to `h1` through `disconnect`. */
  predicate Retired(h0: map<string, TouchSession>, h1: map<string, TouchSession>, ids: seq<string>, n: nat) {
    forall k :: 0 <= k < n && k < |ids| ==> ids[k] in h0 && ids[k] in h1 && ShutDown(ids[k], h0[ids[k]], h1[ids[k]])
  }

  /** Every session of `h0` outside the first `n` of `ids` is the same in `h1`. */
  predicate Untouched(h0: map<string, TouchSession>, h1: map<string, TouchSession>, ids: seq<string>, n: nat)
    requires n <= |ids|
  {
    forall x :: x in h0 && x !in ids[..n] ==> x in h1 && h1[x] == h0[x]
  }

  /** Disconnecting the next session of the snapshot, and changing nothing
      else, retires one more. */
  lemma {:induction false} RetiredStep(h0: map<string, TouchSession>, hA: map<string, TouchSession>,
                                       hB: map<string, TouchSession>, ids: seq<string>, i: nat)
    requires Distinct(ids) && i < |ids| && ids[i] in h0 && ids[i] in hA
    requires Retired(h0, hA, ids, i) && Untouched(h0, hA, ids, i)
    requires forall x :: x in hA && x != ids[i] ==> x in hB && hB[x] == hA[x]
    requires ids[i] in hB && ShutDown(ids[i], hA[ids[i]], hB[ids[i]])
    ensures Retired(h0, hB, ids, i + 1) && Untouched(h0, hB, ids, i + 1)
  {
    assert ids[i] !in ids[..i] by {
      forall k | 0 <= k < i ensures ids[..i][k] != ids[i] {
        assert ids[..i][k] == ids[k];
      }
    }
    assert hA[ids[i]] == h0[ids[i]];
    forall k | 0 <= k < i + 1 && k < |ids|
      ensures ids[k] in h0 && ids[k] in hB && ShutDown(ids[k], h0[ids[k]], hB[ids[k]])
    {
      if k < i {
        assert ids[k] != ids[i];
      }
    }
    assert ids[..i + 1] == ids[..i] + [ids[i]];
  }

  /** The class performing the transitions in place. */
  class Manager {
    var order: seq<string>
    var heap: map<string, TouchSession>
    var stderr: map<string, string>
    var timers: map<nat, Timer>
    var outcomes: map<nat, Settlement>
    var waiters: map<nat, Waiter>
    var connects: map<string, ConnectResult>
    var nextReq: nat

    function State(): ManagerState
      reads this
    {
      ManagerState(order, heap, stderr, timers, outcomes, waiters, connects, nextReq)
    }

    constructor ()
      ensures State() == EMPTY
    {
      order, heap, stderr, timers, outcomes, waiters, connects, nextReq := [], map[], map[], map[], map[], map[], map[], 0;
    }

    /** `cleanup(session)`. */
    method CleanupSession(sid: string)
      requires sid in heap
      modifies this`heap
      ensures heap == old(heap)[sid := Cleanup(old(heap)[sid])]
    {
      var s := heap[sid];
      s := s.(active := false);
      if s.process.present {
        s := s.(process := s.process.(writable := false, ended := true));
        s := s.(process := s.process.(killed := true));
        s := s.(process := s.process.(present := false));
      }
      heap := heap[sid := s];
    }

    /** The slot handlers' `resolve`/`reject` after the slot was emptied:
        clear the timer and settle. */
    method SettleRequest(r: nat, o: Settlement)
      requires r in timers
      modifies this`timers, this`outcomes
      ensures State() == Settle(old(State()), r, o)
    {
      timers := timers[r := timers[r].(armed := false)];
      outcomes := outcomes[r := o];
    }

    method EvictPending(sid: string, o: Settlement)
      requires sid in heap && SessionOk(State(), sid)
      modifies this`heap, this`timers, this`outcomes
      ensures State() == Evict(old(State()), sid, o)
    {
      if heap[sid].pending.Some? {
        var p := heap[sid].pending.value;
        heap := heap[sid := heap[sid].(pending := None)];
        SettleRequest(p, o);
      }
    }

    /** `sendCommandRaw`: returns the request number of the promise. */
    method SendCommandRaw(sid: string, cmd: DaemonCommand, timeoutMs: int) returns (req: nat)
      requires sid in heap
      modifies this`heap, this`timers, this`outcomes, this`nextReq
      ensures Sent(State(), req) == SendRaw(old(State()), sid, cmd, timeoutMs)
    {
      req := nextReq;
      nextReq := nextReq + 1;
      var s := heap[sid];
      if !s.process.present || !s.process.writable {
        outcomes := outcomes[req := Rejected(STDIN_NOT_WRITABLE)];
        return;
      }
      timers := timers[req := Timer(sid, timeoutMs, true)];
      s := s.(pending := Some(req));
      s := s.(process := s.process.(written := s.process.written + [cmd]));
      heap := heap[sid := s];
    }

    /** `sendCommand`. */
    method SendCommand(sid: string, cmd: DaemonCommand) returns (req: nat)
      requires OrderOk(State())
      modifies this`heap, this`timers, this`outcomes, this`nextReq
      ensures Sent(State(), req) == Send(old(State()), sid, cmd)
    {
      if sid !in order {
        req := nextReq;
        nextReq := nextReq + 1;
        outcomes := outcomes[req := Rejected("Session not found: " + sid)];
        return;
      }
      if !heap[sid].active || !heap[sid].process.present {
        req := nextReq;
        nextReq := nextReq + 1;
        outcomes := outcomes[req := Rejected("Session is not active: " + sid)];
        return;
      }
      req := SendCommandRaw(sid, cmd, COMMAND_TIMEOUT_MS);
    }

    method HandleLine(sid: string, line: Reply)
      requires sid in heap && SessionOk(State(), sid)
      modifies this`heap, this`timers, this`outcomes
      ensures State() == OnLine(old(State()), sid, line)
    {
      if line.Parsed? {
        EvictPending(sid, Resolved(line.response));
      }
    }

    method HandleStderr(sid: string, chunk: string)
      requires sid in stderr
      modifies this`stderr
      ensures State() == OnStderr(old(State()), sid, chunk)
    {
      stderr := stderr[sid := stderr[sid] + chunk];
    }

    method HandleClose(sid: string, code: Option<int>)
      requires Valid(State()) && sid in heap
      modifies this`heap, this`timers, this`outcomes
      ensures State() == OnClose(old(State()), sid, code)
    {
      assert SessionOk(State(), sid);
      heap := heap[sid := heap[sid].(active := false)];
      EvictPending(sid, Rejected(ExitMessage(code, stderr[sid])));
    }

    method HandleError(sid: string, message: string)
      requires Valid(State()) && sid in heap
      modifies this`heap, this`timers, this`outcomes
      ensures State() == OnError(old(State()), sid, message)
    {
      assert SessionOk(State(), sid);
      heap := heap[sid := heap[sid].(active := false)];
      EvictPending(sid, Rejected(message));
    }

    method HandleStdinClosed(sid: string)
      requires sid in heap
      modifies this`heap
      ensures State() == OnStdinClosed(old(State()), sid)
    {
      heap := heap[sid := heap[sid].(process := heap[sid].process.(writable := false))];
    }

    /** The timer callback of request `r`. */
    method HandleTimeout(r: nat)
      requires r in timers && timers[r].session in heap
      modifies this`heap, this`timers, this`outcomes
      ensures State() == OnTimeout(old(State()), r)
    {
      var t := timers[r];
      if !t.armed {
        return;
      }
      timers := timers[r := t.(armed := false)];
      if heap[t.session].pending.Some? {
        heap := heap[t.session := heap[t.session].(pending := None)];
        outcomes := outcomes[r := Rejected(TimeoutMessage(t.timeoutMs))];
      }
    }

    /** `connect` up to its `await`; `sid` is the fresh UUID. */
    method StartConnect(sid: string, config: SessionConfig) returns (req: nat)
      requires sid !in heap
      modifies this`order, this`heap, this`stderr, this`timers, this`outcomes, this`waiters, this`nextReq
      ensures Sent(State(), req) == Connect(old(State()), sid, config)
    {
      heap := heap[sid := TouchSession(sid, config, Proc(false, false, [], false, false), false, None)];
      order := order + [sid];
      heap := heap[sid := heap[sid].(process := Proc(true, true, [], false, false))];
      stderr := stderr[sid := ""];
      ghost var m1 := State();
      assert m1 == old(State()).(order := old(order) + [sid], heap := heap, stderr := stderr);
      req := SendCommandRaw(sid, InitCommand(sid, config), HANDSHAKE_TIMEOUT_MS);
      assert Sent(State(), req) == SendRaw(m1, sid, InitCommand(sid, config), HANDSHAKE_TIMEOUT_MS);
      waiters := waiters[req := Handshake(sid)];
    }

    method CompleteConnect(r: nat)
      requires r in waiters && waiters[r].Handshake? && waiters[r].session in heap && r in outcomes
      modifies this`order, this`heap, this`waiters, this`connects
      ensures State() == FinishConnect(old(State()), r)
    {
      var sid := waiters[r].session;
      var host := heap[sid].config.host;
      var o := outcomes[r];
      waiters := waiters - {r};
      if o.Resolved? && o.response.status != Error {
        heap := heap[sid := heap[sid].(active := true)];
        connects := connects[sid := Connected];
        return;
      }
      var reason: string;
      if o.Resolved? {
        CleanupSession(sid);
        reason := "Daemon init failed: " + MessageText(o.response.message);
      } else {
        reason := o.reason;
      }
      CleanupSession(sid);
      order := Remove(order, sid);
      connects := connects[sid := ConnectFailed("Failed to connect to " + host + ": " + reason)];
    }

    /** `disconnect` up to its `await`. */
    method StartDisconnect(sid: string) returns (req: Option<nat>)
      requires OrderOk(State())
      modifies this`order, this`heap, this`timers, this`outcomes, this`waiters, this`nextReq
      ensures Started(State(), req) == Disconnect(old(State()), sid)
    {
      if sid !in order {
        return None;
      }
      if heap[sid].active && heap[sid].process.present {
        var r := SendCommandRaw(sid, ShutdownCommand(sid), SHUTDOWN_TIMEOUT_MS);
        waiters := waiters[r := ShutdownWait(sid)];
        return Some(r);
      }
      CleanupSession(sid);
      order := Remove(order, sid);
      return None;
    }

    method CompleteDisconnect(r: nat)
      requires r in waiters && waiters[r].ShutdownWait? && waiters[r].session in heap && r in outcomes
      modifies this`order, this`heap, this`waiters
      ensures State() == FinishDisconnect(old(State()), r)
    {
      var sid := waiters[r].session;
      waiters := waiters - {r};
      CleanupSession(sid);
      order := Remove(order, sid);
    }

    /** `getSession`. */
    method GetSession(sid: string) returns (r: Option<TouchSession>)
      requires OrderOk(State())
      ensures r == Lookup(State(), sid)
    {
      if sid in order {
        return Some(heap[sid]);
      }
      return None;
    }

    /** `listSessions`: one entry per registered session, in insertion
        order, with `host` written "user@host:port". */
    method ListSessions() returns (r: seq<SessionInfo>)
      requires OrderOk(State())
      ensures |r| == |order|
      ensures forall i :: 0 <= i < |order| ==>
        r[i] == SessionInfo(heap[order[i]].id, heap[order[i]].config.user + "@" + heap[order[i]].config.host
          + ":" + Text.IntToString(heap[order[i]].config.port), heap[order[i]].active)
    {
      r := [];
      var i := 0;
      while i < |order|
        invariant 0 <= i <= |order|
        invariant r == Listing(order, heap, i)
      {
        var s := heap[order[i]];
        r := r + [SessionInfo(s.id, s.config.user + "@" + s.config.host + ":" + Text.IntToString(s.config.port), s.active)];
        i := i + 1;
      }
    }

    /** `disconnectAll`: disconnect each id of a snapshot of the keys, in
        order, each shutdown meeting the fate `fate` gives it before the
        next disconnect starts. Afterwards the map is empty and every
        session that was in it is inactive and without a process. */
    method DisconnectAll(fate: string -> ShutdownFate)
      requires Valid(State())
      modifies this`order, this`heap, this`timers, this`outcomes, this`waiters, this`nextReq
      ensures Valid(State()) && order == []
      ensures heap.Keys == old(heap).Keys
      ensures forall i :: 0 <= i < |old(order)| ==>
        old(order)[i] in old(heap) && old(order)[i] in heap && ShutDown(old(order)[i], old(heap)[old(order)[i]], heap[old(order)[i]])
      ensures forall x :: x in old(heap) && x !in old(order) ==> heap[x] == old(heap)[x]
    {
      var ids := order;
      var i := 0;
      while i < |ids|
        invariant 0 <= i <= |ids|
        invariant Valid(State()) && Distinct(ids)
        invariant order == ids[i..]
        invariant heap.Keys == old(heap).Keys
        invariant Retired(old(heap), heap, ids, i) && Untouched(old(heap), heap, ids, i)
      {
        assert ids[i] == order[0];
        assert ids[i] in heap;
        RemoveFirst(order);
        assert ids[i..][1..] == ids[i + 1..];
        ghost var h0 := heap;
        DisconnectOne(ids[i], fate(ids[i]));
        RetiredStep(old(heap), h0, heap, ids, i);
        i := i + 1;
      }
      assert ids[..i] == ids;
    }

    /** One `await this.disconnect(id)` of `disconnectAll`, with the fate
        of its shutdown. Only that session changes. */
    method DisconnectOne(sid: string, f: ShutdownFate)
      requires Valid(State()) && sid in order
      modifies this`order, this`heap, this`timers, this`outcomes, this`waiters, this`nextReq
      ensures Valid(State()) && order == Remove(old(order), sid)
      ensures heap.Keys == old(heap).Keys
      ensures forall x :: x in old(heap) && x != sid ==> heap[x] == old(heap)[x]
      ensures ShutDown(sid, old(heap)[sid], heap[sid])
    {
      ghost var m0 := State();
      ghost var s0 := heap[sid];
      DisconnectEffect(m0, sid);
      var req := StartDisconnect(sid);
      if req.Some? {
        assert s0.active && s0.process.present;
        AwaitShutdown(sid, req.value, f);
      } else {
        assert heap[sid] == Cleanup(s0);
      }
    }

    /** The rest of `disconnect` once its shutdown request `r` is out. */
    method AwaitShutdown(sid: string, r: nat, f: ShutdownFate)
      requires Valid(State()) && sid in heap && r in waiters && waiters[r] == ShutdownWait(sid)
      requires r in outcomes || (heap[sid].pending == Some(r) && r in timers && timers[r].armed)
      modifies this`order, this`heap, this`timers, this`outcomes, this`waiters
      ensures Valid(State()) && order == Remove(old(order), sid)
      ensures heap.Keys == old(heap).Keys
      ensures forall x :: x in old(heap) && x != sid ==> heap[x] == old(heap)[x]
      ensures !heap[sid].active && !heap[sid].process.present
      ensures heap[sid].process.written == old(heap)[sid].process.written
    {
      Deliver(sid, r, f);
      FinishDisconnectEffect(State(), r);
      CompleteDisconnect(r);
    }

    /** The shutdown request `r` of session `sid` meets its fate: a reply
        line, the process's exit, or its timer firing. Afterwards it is
        settled and nothing but its session's slot, its timer and the
        outcomes changed. */
    method Deliver(sid: string, r: nat, f: ShutdownFate)
      requires Valid(State()) && sid in heap && r in waiters && waiters[r] == ShutdownWait(sid)
      requires r in outcomes || (heap[sid].pending == Some(r) && r in timers && timers[r].armed)
      modifies this`heap, this`timers, this`outcomes
      ensures Valid(State()) && r in outcomes && order == old(order) && waiters == old(waiters)
      ensures heap.Keys == old(heap).Keys
      ensures forall x :: x in heap && x != sid ==> heap[x] == old(heap)[x]
      ensures heap[sid].process.written == old(heap)[sid].process.written
    {
      if r in outcomes {
        return;
      }
      match f
      case Answered(resp) => DeliverReply(sid, r, resp);
      case Exited(code) => DeliverExit(sid, r, code);
      case NoAnswer => DeliverTimeout(sid, r);
    }

    /** The shutdown's reply line arrives. */
    method DeliverReply(sid: string, r: nat, resp: DaemonResponse)
      requires Valid(State()) && sid in heap && heap[sid].pending == Some(r) && r in timers
      modifies this`heap, this`timers, this`outcomes
      ensures Valid(State()) && r in outcomes && order == old(order) && waiters == old(waiters)
      ensures heap.Keys == old(heap).Keys
      ensures forall x :: x in heap && x != sid ==> heap[x] == old(heap)[x]
      ensures heap[sid].process.written == old(heap)[sid].process.written
    {
      EvictValid(State(), sid, Resolved(resp));
      HandleLine(sid, Parsed(resp));
    }

    /** The process exits before replying. */
    method DeliverExit(sid: string, r: nat, code: Option<int>)
      requires Valid(State()) && sid in heap && heap[sid].pending == Some(r) && r in timers
      modifies this`heap, this`timers, this`outcomes
      ensures Valid(State()) && r in outcomes && order == old(order) && waiters == old(waiters)
      ensures heap.Keys == old(heap).Keys
      ensures forall x :: x in heap && x != sid ==> heap[x] == old(heap)[x]
      ensures heap[sid].process.written == old(heap)[sid].process.written
    {
      CloseEffect(State(), sid, code, "");
      CloseFrame(State(), sid, code);
      HandleClose(sid, code);
    }

    /** The shutdown timer fires. */
    method DeliverTimeout(sid: string, r: nat)
      requires Valid(State()) && sid in heap && heap[sid].pending == Some(r) && r in timers && timers[r].armed
      modifies this`heap, this`timers, this`outcomes
      ensures Valid(State()) && r in outcomes && order == old(order) && waiters == old(waiters)
      ensures heap.Keys == old(heap).Keys
      ensures forall x :: x in heap && x != sid ==> heap[x] == old(heap)[x]
      ensures heap[sid].process.written == old(heap)[sid].process.written
    {
      TimeoutValid(State(), r);
      TimeoutEffect(State(), r);
      HandleTimeout(r);
    }
  }
}
