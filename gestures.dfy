/** What each gesture handler of the engine writes to the device: the
    tracking-id counter, the swipe interpolation, and for every handler the
    trace, the new counter and the exception it raises, if any. The lemmas
    check each trace against the multi-touch reader. */
module Gestures {
  import opened Types
  import opened MultiTouch

  const TRACKING_ID_MODULUS := 65536

  /** `next_tracking_id`: the counter after one allocation, which is also the
      id handed out. */
  function NextId(counter: int): (r: int)
    ensures 0 <= r < TRACKING_ID_MODULUS
    ensures (r - counter - 1) % TRACKING_ID_MODULUS == 0
  {
    (counter + 1) % TRACKING_ID_MODULUS
  }

  /** The counter after `n` allocations. */
  function IdAfter(counter: int, n: nat): int {
    if n == 0 then counter else NextId(IdAfter(counter, n - 1))
  }

  /** The `n`-th id handed out after start-up from `counter` is
      `counter + n` modulo 65536; from the initial counter 0 the first id
      is 1. */
  lemma {:induction false} IdAfterIsOffset(counter: int, n: nat)
    requires 0 <= counter < TRACKING_ID_MODULUS
    ensures IdAfter(counter, n) == (counter + n) % TRACKING_ID_MODULUS
  {
    if n > 0 {
      IdAfterIsOffset(counter, n - 1);
      var k := (counter + n - 1) / TRACKING_ID_MODULUS;
      assert counter + n - 1 == k * TRACKING_ID_MODULUS + IdAfter(counter, n - 1);
      assert counter + n == k * TRACKING_ID_MODULUS + (IdAfter(counter, n - 1) + 1);
    }
  }

  /** Ids handed out fewer than 65536 allocations apart are distinct. */
  lemma IdsDistinctWithinWindow(counter: int, m: nat, n: nat)
    requires 0 <= counter < TRACKING_ID_MODULUS
    requires m < n < m + TRACKING_ID_MODULUS
    ensures IdAfter(counter, m) != IdAfter(counter, n)
  {
    IdAfterIsOffset(counter, m);
    IdAfterIsOffset(counter, n);
    var a, b := counter + m, counter + n;
    var qa, qb := a / TRACKING_ID_MODULUS, b / TRACKING_ID_MODULUS;
    assert a == qa * TRACKING_ID_MODULUS + a % TRACKING_ID_MODULUS;
    assert b == qb * TRACKING_ID_MODULUS + b % TRACKING_ID_MODULUS;
    if a % TRACKING_ID_MODULUS == b % TRACKING_ID_MODULUS {
      assert b - a == qb * TRACKING_ID_MODULUS - qa * TRACKING_ID_MODULUS == (qb - qa) * TRACKING_ID_MODULUS;
      MulStrict(qb - qa, TRACKING_ID_MODULUS);
    }
  }

  /** Python's `int()` of the quotient `a / b`: division rounding toward
      zero. */
  function TruncDiv(a: int, b: int): int
    requires b > 0
  {
    if a >= 0 then a / b else -((-a) / b)
  }

  lemma MulAtLeast(d: int, b: int)
    requires b > 0
    ensures d >= 1 ==> d * b >= b
    ensures d <= -1 ==> d * b <= -b
  {
    assert d * b - b == (d - 1) * b;
    assert d * b + b == (d + 1) * b;
  }

  lemma MulStrict(d: int, b: int)
    requires b > 0 && -b < d * b < b
    ensures d == 0
  {
    MulAtLeast(d, b);
  }

  lemma TruncDivBounds(a: int, b: int)
    requires b > 0
    ensures a >= 0 ==> TruncDiv(a, b) >= 0 && 0 <= a - TruncDiv(a, b) * b < b
    ensures a < 0 ==> TruncDiv(a, b) <= 0 && -b < a - TruncDiv(a, b) * b <= 0
  {
    var n := if a >= 0 then a else -a;
    var q, r := n / b, n % b;
    assert n == q * b + r && 0 <= r < b;
    MulAtLeast(q, b);
    assert q >= 0;
    if a < 0 {
      assert a - TruncDiv(a, b) * b == -r;
    }
  }

  lemma TruncDivUnique(n: int, q: int, rem: int, b: int)
    requires b > 0 && n >= 0 && 0 <= rem < b && n == q * b + rem
    ensures TruncDiv(n, b) == q
  {
    var t := TruncDiv(n, b);
    TruncDivBounds(n, b);
    assert n - t * b - rem == (q - t) * b;
    MulStrict(q - t, b);
  }

  lemma TruncDivExact(k: int, b: int)
    requires b > 0
    ensures TruncDiv(k * b, b) == k
  {
    var q := TruncDiv(k * b, b);
    TruncDivBounds(k * b, b);
    assert k * b - q * b == (k - q) * b;
    MulStrict(k - q, b);
  }

  lemma MulStep(p: int, q: int, b: int)
    requires b > 0
    ensures p >= q + 1 ==> p * b >= q * b + b
  {
    MulAtLeast(p - q, b);
    assert p * b == q * b + (p - q) * b;
  }

  lemma TruncDivMonotone(a: int, c: int, b: int)
    requires b > 0 && a <= c
    ensures TruncDiv(a, b) <= TruncDiv(c, b)
  {
    var qa, qc := TruncDiv(a, b), TruncDiv(c, b);
    TruncDivBounds(a, b);
    TruncDivBounds(c, b);
    MulStep(qa, qc, b);
  }

  function Max(a: int, b: int): int {
    if a >= b then a else b
  }

  /** The swipe's default number of steps, `max(int(duration_ms / 15), 2)`. */
  function DefaultSteps(durationMs: int): (s: int)
    ensures s >= 2
    ensures durationMs >= 30 ==> s == durationMs / 15
    ensures durationMs < 30 ==> s == 2
  {
    Max(TruncDiv(durationMs, 15), 2)
  }

  /** Coordinate of move `i` of `steps` from `a` to `b`:
      `int(a + (b - a) * (i / steps))`, computed exactly. */
  function Interp(a: int, b: int, i: int, steps: int): int
    requires steps > 0
  {
    TruncDiv(a * steps + (b - a) * i, steps)
  }

  /** Move 0 would be the start point and move `steps` is the end point. */
  lemma InterpEnds(a: int, b: int, steps: int)
    requires steps > 0
    ensures Interp(a, b, 0, steps) == a
    ensures Interp(a, b, steps, steps) == b
  {
    TruncDivExact(a, steps);
    assert a * steps + (b - a) * steps == b * steps;
    TruncDivExact(b, steps);
  }

  lemma NonNegativeNumerator(a: int, b: int, i: int, steps: int)
    requires steps > 0 && 0 <= i <= steps && a >= 0 && b >= 0
    ensures a * steps + (b - a) * i >= 0
  {
    assert a * steps + (b - a) * i == a * (steps - i) + b * i;
  }

  /** For non-negative coordinates the truncation is a floor, giving
      `a + floor((b - a) * i / steps)`. */
  lemma InterpFloor(a: int, b: int, i: int, steps: int)
    requires steps > 0 && 0 <= i <= steps && a >= 0 && b >= 0
    ensures Interp(a, b, i, steps) == a + ((b - a) * i) / steps
  {
    var k := (b - a) * i;
    NonNegativeNumerator(a, b, i, steps);
    var q, rem := k / steps, k % steps;
    assert a * steps + k == (a + q) * steps + rem by {
      assert k == q * steps + rem;
      assert a * steps + q * steps == (a + q) * steps;
    }
    TruncDivUnique(a * steps + k, a + q, rem, steps);
  }

  /** Moves advance toward the end point: a forward coordinate never goes
      back, a backward one never goes forward. */
  lemma {:induction false} InterpMonotone(a: int, b: int, i: int, j: int, steps: int)
    requires steps > 0 && a <= b && i <= j
    ensures Interp(a, b, i, steps) <= Interp(a, b, j, steps)
  {
    assert (b - a) * j - (b - a) * i == (b - a) * (j - i) >= 0;
    TruncDivMonotone(a * steps + (b - a) * i, a * steps + (b - a) * j, steps);
  }

  lemma {:induction false} InterpAntitone(a: int, b: int, i: int, j: int, steps: int)
    requires steps > 0 && b <= a && i <= j
    ensures Interp(a, b, j, steps) <= Interp(a, b, i, steps)
  {
    assert (a - b) * j - (a - b) * i == (a - b) * (j - i) >= 0;
    assert (b - a) * j == -((a - b) * j) && (b - a) * i == -((a - b) * i);
    TruncDivMonotone(a * steps + (b - a) * j, a * steps + (b - a) * i, steps);
  }

  /** Every move lies between the two endpoints, inclusive. */
  lemma InterpBetween(a: int, b: int, i: int, steps: int)
    requires steps > 0 && 0 <= i <= steps
    ensures a <= b ==> a <= Interp(a, b, i, steps) <= b
    ensures b <= a ==> b <= Interp(a, b, i, steps) <= a
  {
    InterpEnds(a, b, steps);
    if a <= b {
      InterpMonotone(a, b, 0, i, steps);
      InterpMonotone(a, b, i, steps, steps);
    } else {
      InterpAntitone(a, b, 0, i, steps);
      InterpAntitone(a, b, i, steps, steps);
    }
  }

  /** A swipe from (0,0) to (100,100) in four steps moves through (25,25),
      (50,50), (75,75) and (100,100). */
  lemma InterpQuarterSteps()
    ensures Interp(0, 100, 1, 4) == 25 && Interp(0, 100, 2, 4) == 50
    ensures Interp(0, 100, 3, 4) == 75 && Interp(0, 100, 4, 4) == 100
  {
  }

  /** The result of running one gesture handler: what it wrote, the counter
      afterwards, and the message of the exception it raised, if any (the
      trace up to the exception stays written). */
  datatype Gesture = Gesture(emitted: seq<Output>, counter: int, error: Option<string>)

  /** `str(e)` of the ValueError `time.sleep` raises for a negative length. */
  const SLEEP_ERROR := "sleep length must be non-negative"

  /** `str(e)` of the KeyError for a missing field. */
  function KeyError(key: string): string {
    "'" + key + "'"
  }

  /** `handle_tap` (default 50 ms) and `handle_long_press` (default 800 ms):
      down on slot 0, hold, up. */
  function PressGesture(args: CommandArgs, counter: int, defaultMs: int): Gesture {
    if args.x.None? then Gesture([], counter, Some(KeyError("x")))
    else if args.y.None? then Gesture([], counter, Some(KeyError("y")))
    else
      var duration := args.durationMs.GetOr(defaultMs);
      var tid := NextId(counter);
      var down := DownGroup(0, tid, args.x.value, args.y.value);
      if duration < 0 then Gesture(down, tid, Some(SLEEP_ERROR))
      else Gesture(down + [Pause(duration as real)] + UpGroup(0), tid, None)
  }

  /** The first `n` iterations of the swipe loop: sleep, then move. */
  function SwipeMoves(x1: int, y1: int, x2: int, y2: int, steps: int, pause: real, n: nat): seq<Output>
    requires n <= steps
  {
    if n == 0 then [] else
      SwipeMoves(x1, y1, x2, y2, steps, pause, n - 1)
      + [Pause(pause)] + MoveGroup(0, Interp(x1, x2, n, steps), Interp(y1, y2, n, steps))
  }

  /** The swipe's number of steps: the `steps` field, else the default for
      the duration. */
  function SwipeSteps(args: CommandArgs): int {
    args.steps.GetOr(DefaultSteps(args.durationMs.GetOr(300)))
  }

  /** `handle_swipe`: down at the start, `steps` paced moves, up. */
  function SwipeGesture(args: CommandArgs, counter: int): Gesture {
    if args.x.None? then Gesture([], counter, Some(KeyError("x")))
    else if args.y.None? then Gesture([], counter, Some(KeyError("y")))
    else if args.x2.None? then Gesture([], counter, Some(KeyError("x2")))
    else if args.y2.None? then Gesture([], counter, Some(KeyError("y2")))
    else
      var x1, y1, x2, y2 := args.x.value, args.y.value, args.x2.value, args.y2.value;
      var duration := args.durationMs.GetOr(300);
      var steps := SwipeSteps(args);
      var tid := NextId(counter);
      var down := DownGroup(0, tid, x1, y1);
      if steps <= 0 then Gesture(down + UpGroup(0), tid, None)
      else if duration < 0 then Gesture(down, tid, Some(SLEEP_ERROR))
      else
        var pause := duration as real / steps as real;
        Gesture(down + SwipeMoves(x1, y1, x2, y2, steps, pause, steps) + UpGroup(0), tid, None)
  }

  /** `handle_double_tap`: two taps at one point with fixed timings. */
  function DoubleTapGesture(args: CommandArgs, counter: int): Gesture {
    if args.x.None? then Gesture([], counter, Some(KeyError("x")))
    else if args.y.None? then Gesture([], counter, Some(KeyError("y")))
    else
      var x, y := args.x.value, args.y.value;
      var first := NextId(counter);
      var second := NextId(first);
      Gesture(DownGroup(0, first, x, y) + [Pause(50.0)] + UpGroup(0) + [Pause(100.0)]
        + DownGroup(0, second, x, y) + [Pause(50.0)] + UpGroup(0), second, None)
  }

  // ---- The traces, read back as multi-touch frames ----

  lemma ReleaseFresh(m: Frame, c: Contact)
    ensures m[0 := c] - {0} == m - {0}
  {
  }

  /** A press that completes publishes exactly two frames: a new contact on
      slot 0 at the point with a fresh tracking id (replacing any contact
      there), then the contacts before it less slot 0. It sleeps once, for
      the duration, in between. */
  lemma {:induction false} PressTrace(args: CommandArgs, counter: int, defaultMs: int, r: Reader)
    requires args.x.Some? && args.y.Some? && args.durationMs.GetOr(defaultMs) >= 0
    ensures var g := PressGesture(args, counter, defaultMs);
      var c := Contact(NextId(counter), args.x.value, args.y.value);
      && g.error.None? && g.counter == NextId(counter)
      && Frames(r, g.emitted) == [r.contacts[0 := c], r.contacts - {0}]
      && After(r, g.emitted) == Reader(0, r.contacts - {0})
      && Pauses(g.emitted) == [args.durationMs.GetOr(defaultMs) as real]
      && EventCount(g.emitted) == 8
  {
    var g := PressGesture(args, counter, defaultMs);
    var tid := NextId(counter);
    var c := Contact(tid, args.x.value, args.y.value);
    var ms := args.durationMs.GetOr(defaultMs) as real;
    var down := DownGroup(0, tid, args.x.value, args.y.value);
    assert g.emitted == down + [Pause(ms)] + UpGroup(0);
    ReadDown(r, 0, tid, args.x.value, args.y.value);
    var r1 := Reader(0, r.contacts[0 := c]);
    ReadPause(r1, ms);
    ReadUp(r1, 0);
    ReleaseFresh(r.contacts, c);
    ReadAppend(r, down, [Pause(ms)]);
    ReadAppend(r, down + [Pause(ms)], UpGroup(0));
    PausesAppend(down, [Pause(ms)]);
    PausesAppend(down + [Pause(ms)], UpGroup(0));
    EventCountAppend(down, [Pause(ms)]);
    EventCountAppend(down + [Pause(ms)], UpGroup(0));
    GroupCounts(0, tid, args.x.value, args.y.value);
    assert Pauses([Pause(ms)]) == [ms] && EventCount([Pause(ms)]) == 0 by {
      assert [Pause(ms)][1..] == [];
    }
  }

  /** A press with a missing coordinate raises before writing anything or
      allocating an id; one with a negative duration leaves the contact down. */
  lemma PressFailures(args: CommandArgs, counter: int, defaultMs: int, r: Reader)
    ensures args.x.None? ==> PressGesture(args, counter, defaultMs) == Gesture([], counter, Some("'x'"))
    ensures args.x.Some? && args.y.None? ==> PressGesture(args, counter, defaultMs) == Gesture([], counter, Some("'y'"))
    ensures args.x.Some? && args.y.Some? && args.durationMs.GetOr(defaultMs) < 0 ==>
      var g := PressGesture(args, counter, defaultMs);
      && g.error == Some(SLEEP_ERROR) && g.counter == NextId(counter)
      && After(r, g.emitted).contacts == r.contacts[0 := Contact(NextId(counter), args.x.value, args.y.value)]
  {
    assert KeyError("x") == "'x'" && KeyError("y") == "'y'";
    if args.x.Some? && args.y.Some? {
      ReadDown(r, 0, NextId(counter), args.x.value, args.y.value);
    }
  }

  /** The frame published by move `i` of a swipe (`i == 0`: the touch-down). */
  function SwipeFrame(m: Frame, tid: int, x1: int, y1: int, x2: int, y2: int, steps: int, i: int): Frame
    requires steps > 0
  {
    m[0 := Contact(tid, Interp(x1, x2, i, steps), Interp(y1, y2, i, steps))]
  }

  lemma {:induction false} ReadSwipeMoves(m: Frame, tid: int, x1: int, y1: int, x2: int, y2: int,
                                            steps: int, pause: real, n: nat)
    requires 0 < steps && n <= steps
    ensures var r0 := Reader(0, SwipeFrame(m, tid, x1, y1, x2, y2, steps, 0));
      var t := SwipeMoves(x1, y1, x2, y2, steps, pause, n);
      && After(r0, t) == Reader(0, SwipeFrame(m, tid, x1, y1, x2, y2, steps, n))
      && |Frames(r0, t)| == n
      && (forall i :: 0 <= i < n ==> Frames(r0, t)[i] == SwipeFrame(m, tid, x1, y1, x2, y2, steps, i + 1))
      && Pauses(t) == seq(n, _ => pause)
  {
    var r0 := Reader(0, SwipeFrame(m, tid, x1, y1, x2, y2, steps, 0));
    if n > 0 {
      ReadSwipeMoves(m, tid, x1, y1, x2, y2, steps, pause, n - 1);
      var prefix := SwipeMoves(x1, y1, x2, y2, steps, pause, n - 1);
      var px, py := Interp(x1, x2, n, steps), Interp(y1, y2, n, steps);
      var move := MoveGroup(0, px, py);
      var r1 := Reader(0, SwipeFrame(m, tid, x1, y1, x2, y2, steps, n - 1));
      ReadPause(r1, pause);
      ReadMove(r1, 0, px, py);
      assert r1.contacts[0 := r1.contacts[0].(x := px, y := py)] == SwipeFrame(m, tid, x1, y1, x2, y2, steps, n);
      ReadAppend(r0, prefix, [Pause(pause)]);
      ReadAppend(r0, prefix + [Pause(pause)], move);
      PausesAppend(prefix, [Pause(pause)]);
      PausesAppend(prefix + [Pause(pause)], move);
      GroupCounts(0, tid, px, py);
      assert Pauses([Pause(pause)]) == [pause] by {
        assert [Pause(pause)][1..] == [];
      }
    }
  }

  /** A swipe that completes publishes the touch-down at the start point,
      then one frame per step at the interpolated points (the last one at the
      end point), then the contacts before it less slot 0; it sleeps
      `duration/steps` before each move. */
  lemma SwipeTrace(args: CommandArgs, counter: int, r: Reader)
    requires args.x.Some? && args.y.Some? && args.x2.Some? && args.y2.Some?
    requires SwipeSteps(args) > 0 && args.durationMs.GetOr(300) >= 0
    ensures var g := SwipeGesture(args, counter);
      var steps := SwipeSteps(args);
      var x1, y1, x2, y2 := args.x.value, args.y.value, args.x2.value, args.y2.value;
      var tid := NextId(counter);
      var fr := Frames(r, g.emitted);
      && g.error.None? && g.counter == tid
      && |fr| == steps + 2
      && fr[0] == r.contacts[0 := Contact(tid, x1, y1)]
      && (forall i :: 1 <= i <= steps ==> fr[i] == SwipeFrame(r.contacts, tid, x1, y1, x2, y2, steps, i))
      && fr[steps] == r.contacts[0 := Contact(tid, x2, y2)]
      && fr[steps + 1] == r.contacts - {0}
      && After(r, g.emitted) == Reader(0, r.contacts - {0})
      && Pauses(g.emitted) == seq(steps, _ => args.durationMs.GetOr(300) as real / steps as real)
  {
    var g := SwipeGesture(args, counter);
    var steps := SwipeSteps(args);
    var x1, y1, x2, y2 := args.x.value, args.y.value, args.x2.value, args.y2.value;
    var tid := NextId(counter);
    var pause := args.durationMs.GetOr(300) as real / steps as real;
    assert g.emitted == DownGroup(0, tid, x1, y1) + SwipeMoves(x1, y1, x2, y2, steps, pause, steps) + UpGroup(0);
    ReadSwipe(r, tid, x1, y1, x2, y2, steps, pause);
  }

  /** The trace of a completed swipe, for any pause between moves. */
  lemma ReadSwipe(r: Reader, tid: int, x1: int, y1: int, x2: int, y2: int, steps: int, pause: real)
    requires steps > 0 && tid != -1
    ensures var t := DownGroup(0, tid, x1, y1) + SwipeMoves(x1, y1, x2, y2, steps, pause, steps) + UpGroup(0);
      var fr := Frames(r, t);
      && |fr| == steps + 2
      && fr[0] == r.contacts[0 := Contact(tid, x1, y1)]
      && (forall i :: 1 <= i <= steps ==> fr[i] == SwipeFrame(r.contacts, tid, x1, y1, x2, y2, steps, i))
      && fr[steps] == r.contacts[0 := Contact(tid, x2, y2)]
      && fr[steps + 1] == r.contacts - {0}
      && After(r, t) == Reader(0, r.contacts - {0})
      && Pauses(t) == seq(steps, _ => pause)
  {
    var down := DownGroup(0, tid, x1, y1);
    var moves := SwipeMoves(x1, y1, x2, y2, steps, pause, steps);
    InterpEnds(x1, x2, steps);
    InterpEnds(y1, y2, steps);
    var m := r.contacts;
    assert SwipeFrame(m, tid, x1, y1, x2, y2, steps, 0) == m[0 := Contact(tid, x1, y1)];
    ReadDown(r, 0, tid, x1, y1);
    ReadSwipeMoves(m, tid, x1, y1, x2, y2, steps, pause, steps);
    var rEnd := Reader(0, SwipeFrame(m, tid, x1, y1, x2, y2, steps, steps));
    ReadUp(rEnd, 0);
    ReleaseFresh(m, Contact(tid, x2, y2));
    ReadAppend(r, down, moves);
    ReadAppend(r, down + moves, UpGroup(0));
    PausesAppend(down, moves);
    PausesAppend(down + moves, UpGroup(0));
    GroupCounts(0, tid, x1, y1);
    var r1 := Reader(0, m[0 := Contact(tid, x1, y1)]);
    var fm := Frames(r1, moves);
    assert After(r, down) == r1 && After(r1, moves) == rEnd;
    assert Frames(rEnd, UpGroup(0)) == [m - {0}];
    var fr := Frames(r, down + moves + UpGroup(0));
    assert fr == [m[0 := Contact(tid, x1, y1)]] + fm + [m - {0}];
    forall i | 1 <= i <= steps ensures fr[i] == SwipeFrame(m, tid, x1, y1, x2, y2, steps, i) {
      assert fr[i] == fm[i - 1];
    }
  }

  /** With neither a duration nor a step count, a swipe takes 300 ms in 20
      steps of 15 ms. */
  lemma SwipeDefaults(args: CommandArgs)
    requires args.durationMs.None? && args.steps.None?
    ensures SwipeSteps(args) == 20
    ensures args.durationMs.GetOr(300) as real / SwipeSteps(args) as real == 15.0
  {
  }

  /** A swipe with a step count of zero or less writes a down and an up and
      no move. */
  lemma SwipeWithoutSteps(args: CommandArgs, counter: int, r: Reader)
    requires args.x.Some? && args.y.Some? && args.x2.Some? && args.y2.Some?
    requires SwipeSteps(args) <= 0
    ensures var g := SwipeGesture(args, counter);
      && g.error.None?
      && Frames(r, g.emitted) == [r.contacts[0 := Contact(NextId(counter), args.x.value, args.y.value)], r.contacts - {0}]
      && Pauses(g.emitted) == []
  {
    var tid := NextId(counter);
    var down := DownGroup(0, tid, args.x.value, args.y.value);
    ReadDown(r, 0, tid, args.x.value, args.y.value);
    ReadUp(Reader(0, r.contacts[0 := Contact(tid, args.x.value, args.y.value)]), 0);
    ReleaseFresh(r.contacts, Contact(tid, args.x.value, args.y.value));
    ReadAppend(r, down, UpGroup(0));
    PausesAppend(down, UpGroup(0));
    GroupCounts(0, tid, args.x.value, args.y.value);
  }

  /** A double tap publishes four frames: a contact at the point, release,
      a contact at the same point with the next tracking id, release; it
      sleeps 50, 100 and 50 ms. */
  lemma DoubleTapTrace(args: CommandArgs, counter: int, r: Reader)
    requires args.x.Some? && args.y.Some?
    ensures var g := DoubleTapGesture(args, counter);
      var first := NextId(counter);
      var second := NextId(first);
      && g.error.None? && g.counter == second && first != second
      && Frames(r, g.emitted) == [r.contacts[0 := Contact(first, args.x.value, args.y.value)], r.contacts - {0},
                                   r.contacts[0 := Contact(second, args.x.value, args.y.value)], r.contacts - {0}]
      && After(r, g.emitted) == Reader(0, r.contacts - {0})
      && Pauses(g.emitted) == [50.0, 100.0, 50.0]
  {
    var x, y := args.x.value, args.y.value;
    var first := NextId(counter);
    var second := NextId(first);
    var m := r.contacts;
    var tap1 := DownGroup(0, first, x, y) + [Pause(50.0)] + UpGroup(0);
    var tap2 := DownGroup(0, second, x, y) + [Pause(50.0)] + UpGroup(0);
    var g := DoubleTapGesture(args, counter);
    assert g.emitted == tap1 + [Pause(100.0)] + tap2;
    PressTrace(CommandArgs(Some(x), Some(y), None, None, Some(50), None, None, None), counter, 50, r);
    assert PressGesture(CommandArgs(Some(x), Some(y), None, None, Some(50), None, None, None), counter, 50).emitted == tap1;
    var r1 := Reader(0, m - {0});
    ReadPause(r1, 100.0);
    assert (m - {0})[0 := Contact(second, x, y)] == m[0 := Contact(second, x, y)];
    assert (m - {0}) - {0} == m - {0};
    PressTrace(CommandArgs(Some(x), Some(y), None, None, Some(50), None, None, None), first, 50, r1);
    assert PressGesture(CommandArgs(Some(x), Some(y), None, None, Some(50), None, None, None), first, 50).emitted == tap2;
    ReadAppend(r, tap1, [Pause(100.0)]);
    ReadAppend(r, tap1 + [Pause(100.0)], tap2);
    PausesAppend(tap1, [Pause(100.0)]);
    PausesAppend(tap1 + [Pause(100.0)], tap2);
  }
}
