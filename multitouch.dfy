/** Low-level input events of the Linux multi-touch protocol, type B
    (slot-based), as the engine writes them to its uinput device, and a reader
    that interprets an event stream the way the kernel's slot protocol does:
    ABS_MT_SLOT selects a slot, ABS_MT_TRACKING_ID starts a contact on it
    (or ends it with -1), ABS_MT_POSITION_X/Y update it, and SYN_REPORT
    publishes a frame of all current contacts. The reader is the independent
    reference the gesture traces are checked against. */
module MultiTouch {

  const EV_SYN := 0x00
  const EV_ABS := 0x03
  const SYN_REPORT := 0x00
  const ABS_MT_SLOT := 0x2f
  const ABS_MT_TRACKING_ID := 0x39
  const ABS_MT_POSITION_X := 0x35
  const ABS_MT_POSITION_Y := 0x36

  /** One `input_event` (type, code, value); the timestamp is not modelled. */
  datatype InputEvent = InputEvent(evType: int, code: int, value: int)

  /** What the engine does to its device, in order: write an event, or sleep
      for a number of milliseconds. */
  datatype Output = Emit(event: InputEvent) | Pause(ms: real)

  function Abs(code: int, value: int): Output {
    Emit(InputEvent(EV_ABS, code, value))
  }

  /** `syn_report`: the frame terminator (0, 0, 0). */
  function SynGroup(): seq<Output> {
    [Emit(InputEvent(EV_SYN, SYN_REPORT, 0))]
  }

  /** `touch_down`: select the slot, give it a tracking id, set the position,
      report. */
  function DownGroup(slot: int, trackingId: int, x: int, y: int): (g: seq<Output>)
    ensures |g| == 5 && g[4] == SynGroup()[0]
  {
    [Abs(ABS_MT_SLOT, slot), Abs(ABS_MT_TRACKING_ID, trackingId),
     Abs(ABS_MT_POSITION_X, x), Abs(ABS_MT_POSITION_Y, y)] + SynGroup()
  }

  /** `touch_move`: as a down group without the tracking id. */
  function MoveGroup(slot: int, x: int, y: int): (g: seq<Output>)
    ensures |g| == 4 && g[3] == SynGroup()[0]
  {
    [Abs(ABS_MT_SLOT, slot), Abs(ABS_MT_POSITION_X, x), Abs(ABS_MT_POSITION_Y, y)] + SynGroup()
  }

  /** `touch_up`: select the slot, release it with tracking id -1, report. */
  function UpGroup(slot: int): (g: seq<Output>)
    ensures |g| == 3 && g[2] == SynGroup()[0]
  {
    [Abs(ABS_MT_SLOT, slot), Abs(ABS_MT_TRACKING_ID, -1)] + SynGroup()
  }

  /** The pauses of a trace, in order. */
  function Pauses(t: seq<Output>): seq<real> {
    if t == [] then []
    else (if t[0].Pause? then [t[0].ms] else []) + Pauses(t[1..])
  }

  lemma {:induction false} PausesAppend(a: seq<Output>, b: seq<Output>)
    ensures Pauses(a + b) == Pauses(a) + Pauses(b)
  {
    if a == [] {
      assert a + b == b;
    } else {
      PausesAppend(a[1..], b);
      assert (a + b)[1..] == a[1..] + b;
      var h := if a[0].Pause? then [a[0].ms] else [];
      calc {
        Pauses(a + b);
        h + Pauses(a[1..] + b);
        h + (Pauses(a[1..]) + Pauses(b));
        (h + Pauses(a[1..])) + Pauses(b);
      }
    }
  }

  /** The number of written events of a trace. */
  function EventCount(t: seq<Output>): nat {
    if t == [] then 0 else (if t[0].Emit? then 1 else 0) + EventCount(t[1..])
  }

  lemma {:induction false} EventCountAppend(a: seq<Output>, b: seq<Output>)
    ensures EventCount(a + b) == EventCount(a) + EventCount(b)
  {
    if a == [] {
      assert a + b == b;
    } else {
      EventCountAppend(a[1..], b);
      assert (a + b)[1..] == a[1..] + b;
    }
  }

  /** A trace of written events only has no pause and counts every element. */
  lemma {:induction false} OnlyEvents(t: seq<Output>)
    requires forall i :: 0 <= i < |t| ==> t[i].Emit?
    ensures Pauses(t) == [] && EventCount(t) == |t|
  {
    if t != [] {
      OnlyEvents(t[1..]);
    }
  }

  /** The three groups write 5, 4 and 3 events and never sleep. */
  lemma GroupCounts(slot: int, tid: int, x: int, y: int)
    ensures Pauses(DownGroup(slot, tid, x, y)) == [] && EventCount(DownGroup(slot, tid, x, y)) == 5
    ensures Pauses(MoveGroup(slot, x, y)) == [] && EventCount(MoveGroup(slot, x, y)) == 4
    ensures Pauses(UpGroup(slot)) == [] && EventCount(UpGroup(slot)) == 3
  {
    OnlyEvents(DownGroup(slot, tid, x, y));
    OnlyEvents(MoveGroup(slot, x, y));
    OnlyEvents(UpGroup(slot));
  }

  /** One contact on a slot. */
  datatype Contact = Contact(trackingId: int, x: int, y: int)

  /** A frame: the contacts present, by slot. */
  type Frame = map<int, Contact>

  /** The reader's state: the selected slot and the live contacts. */
  datatype Reader = Reader(slot: int, contacts: Frame)

  const FRESH_READER := Reader(0, map[])

  predicate IsSyn(e: InputEvent) {
    e.evType == EV_SYN && e.code == SYN_REPORT
  }

  function Apply(r: Reader, e: InputEvent): Reader {
    if e.evType != EV_ABS then r
    else if e.code == ABS_MT_SLOT then r.(slot := e.value)
    else if e.code == ABS_MT_TRACKING_ID then
      if e.value == -1 then r.(contacts := r.contacts - {r.slot})
      else
        var prev := if r.slot in r.contacts then r.contacts[r.slot] else Contact(0, 0, 0);
        r.(contacts := r.contacts[r.slot := Contact(e.value, prev.x, prev.y)])
    else if e.code == ABS_MT_POSITION_X && r.slot in r.contacts then
      r.(contacts := r.contacts[r.slot := r.contacts[r.slot].(x := e.value)])
    else if e.code == ABS_MT_POSITION_Y && r.slot in r.contacts then
      r.(contacts := r.contacts[r.slot := r.contacts[r.slot].(y := e.value)])
    else r
  }

  /** The reader's state after a trace. Pauses do not change it. */
  function After(r: Reader, t: seq<Output>): Reader
    decreases |t|
  {
    if t == [] then r
    else After(if t[0].Emit? then Apply(r, t[0].event) else r, t[1..])
  }

  /** The frames a trace publishes, one per SYN_REPORT. */
  function Frames(r: Reader, t: seq<Output>): seq<Frame>
    decreases |t|
  {
    if t == [] then []
    else
      var head := if t[0].Emit? && IsSyn(t[0].event) then [r.contacts] else [];
      head + Frames(if t[0].Emit? then Apply(r, t[0].event) else r, t[1..])
  }

  /** Reading a trace in two pieces is reading it whole. */
  lemma {:induction false} ReadAppend(r: Reader, a: seq<Output>, b: seq<Output>)
    ensures After(r, a + b) == After(After(r, a), b)
    ensures Frames(r, a + b) == Frames(r, a) + Frames(After(r, a), b)
    decreases |a|
  {
    if a == [] {
      assert a + b == b;
    } else {
      var r1 := if a[0].Emit? then Apply(r, a[0].event) else r;
      ReadAppend(r1, a[1..], b);
      assert (a + b)[1..] == a[1..] + b;
    }
  }

  lemma ReadOne(r: Reader, o: Output)
    ensures After(r, [o]) == (if o.Emit? then Apply(r, o.event) else r)
    ensures Frames(r, [o]) == (if o.Emit? && IsSyn(o.event) then [r.contacts] else [])
  {
    assert [o][1..] == [];
  }

  lemma ReadCons(r: Reader, o: Output, t: seq<Output>)
    ensures After(r, [o] + t) == After(if o.Emit? then Apply(r, o.event) else r, t)
    ensures Frames(r, [o] + t) ==
      (if o.Emit? && IsSyn(o.event) then [r.contacts] else []) + Frames(if o.Emit? then Apply(r, o.event) else r, t)
  {
    assert ([o] + t)[1..] == t;
  }

  lemma ReadSyn(r: Reader)
    ensures After(r, SynGroup()) == r && Frames(r, SynGroup()) == [r.contacts]
  {
    ReadOne(r, SynGroup()[0]);
  }

  /** A down group on a slot starts a contact there with the given tracking id
      and position, and publishes one frame holding it. */
  lemma ReadDown(r: Reader, slot: int, tid: int, x: int, y: int)
    requires tid != -1
    ensures After(r, DownGroup(slot, tid, x, y)) == Reader(slot, r.contacts[slot := Contact(tid, x, y)])
    ensures Frames(r, DownGroup(slot, tid, x, y)) == [r.contacts[slot := Contact(tid, x, y)]]
  {
    var r1 := Apply(r, InputEvent(EV_ABS, ABS_MT_SLOT, slot));
    var r2 := Apply(r1, InputEvent(EV_ABS, ABS_MT_TRACKING_ID, tid));
    var r3 := Apply(r2, InputEvent(EV_ABS, ABS_MT_POSITION_X, x));
    var r4 := Apply(r3, InputEvent(EV_ABS, ABS_MT_POSITION_Y, y));
    assert r4 == Reader(slot, r.contacts[slot := Contact(tid, x, y)]);
    var g := DownGroup(slot, tid, x, y);
    ReadCons(r, g[0], g[1..]);
    ReadCons(r1, g[1], g[2..]);
    ReadCons(r2, g[2], g[3..]);
    ReadCons(r3, g[3], g[4..]);
    assert g[4..] == SynGroup();
    ReadSyn(r4);
  }

  /** A move group on a slot holding a contact moves it, keeping its tracking
      id, and publishes one frame. */
  lemma ReadMove(r: Reader, slot: int, x: int, y: int)
    requires slot in r.contacts
    ensures After(r, MoveGroup(slot, x, y)) == Reader(slot, r.contacts[slot := r.contacts[slot].(x := x, y := y)])
    ensures Frames(r, MoveGroup(slot, x, y)) == [r.contacts[slot := r.contacts[slot].(x := x, y := y)]]
  {
    var r1 := Apply(r, InputEvent(EV_ABS, ABS_MT_SLOT, slot));
    var r2 := Apply(r1, InputEvent(EV_ABS, ABS_MT_POSITION_X, x));
    var r3 := Apply(r2, InputEvent(EV_ABS, ABS_MT_POSITION_Y, y));
    assert r3 == Reader(slot, r.contacts[slot := r.contacts[slot].(x := x, y := y)]);
    var g := MoveGroup(slot, x, y);
    ReadCons(r, g[0], g[1..]);
    ReadCons(r1, g[1], g[2..]);
    ReadCons(r2, g[2], g[3..]);
    assert g[3..] == SynGroup();
    ReadSyn(r3);
  }

  /** An up group releases the slot's contact and publishes one frame
      without it. */
  lemma ReadUp(r: Reader, slot: int)
    ensures After(r, UpGroup(slot)) == Reader(slot, r.contacts - {slot})
    ensures Frames(r, UpGroup(slot)) == [r.contacts - {slot}]
  {
    var r1 := Apply(r, InputEvent(EV_ABS, ABS_MT_SLOT, slot));
    var r2 := Apply(r1, InputEvent(EV_ABS, ABS_MT_TRACKING_ID, -1));
    var g := UpGroup(slot);
    ReadCons(r, g[0], g[1..]);
    ReadCons(r1, g[1], g[2..]);
    assert g[2..] == SynGroup();
    ReadSyn(r2);
  }

  lemma ReadPause(r: Reader, ms: real)
    ensures After(r, [Pause(ms)]) == r && Frames(r, [Pause(ms)]) == []
  {
    ReadOne(r, Pause(ms));
  }
}
