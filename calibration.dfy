/** The calibration stage (`CalibrationThread`): flashes the projector in a
    twelve-frame cycle, six black frames then six white, and measures the
    latency from the first white frame of each cycle to the external event
    (a photodiode) that the event thread reports. */
module CalibrationStage {
  import opened Ints

  /** Frames per black/white cycle, and the frame at which white begins. */
  const CYCLE: nat := 12
  const FIRST_WHITE: nat := 6

  const CARD_ERROR: string := "ERROR: Failed to initialize timing card.\n"
  const WINDOW_ERROR: string := "ERROR: Failed to create projector window: "
  const EVENT_THREAD_DIED: string := "ERROR: External event thread died\n"
  const DISPLAY_ERROR: string := "ERROR: Failed to display projector frame: "

  /** One pass of the calibration loop: the stop flag; whether the event
      thread still runs; what `getEventTimestamp` returned (microseconds, 0
      for none); whether displaying the frame succeeded, the platform's
      error text if not, and the frame's presentation timestamp. */
  datatype CalTick = CalTick(stop: bool, eventThreadAlive: bool, eventTimestamp: uint64,
                             displayed: bool, displayError: string, timestamp: uint64)

  /** The loop's state after a run of passes: the position in the cycle, the
      timestamp of the last first-white frame not yet matched by an event
      (0 when none), the colours shown (true for white), the latencies
      measured in milliseconds, and how many times the external event was
      cleared. */
  datatype Calibration = Calibration(count: int, white: uint64, shown: seq<bool>, deltas: seq<uint32>, clears: nat)

  /** The latency measured in a pass, if any: only an event later than a
      recorded first-white frame counts, in whole milliseconds. */
  function DeltaOf(white: uint64, event: uint64): (d: seq<uint32>)
    ensures |d| <= 1
    ensures |d| == 1 <==> event != 0 && white != 0 && event > white
    ensures |d| == 1 ==> d[0] as int == ((event - white) / 1000) % TWO_32
  {
    if event != 0 && white != 0 && event > white then [ToUint32((event - white) / 1000)] else []
  }

  /** A pass that went through: the event is checked against the recorded
      white frame (a measurement consumes it), the frame is shown (white from
      the sixth frame of the cycle on), the first white frame clears the
      external event and records its timestamp, and the cycle advances. */
  function Pass(c: Calibration, t: CalTick): Calibration {
    var d := DeltaOf(c.white, t.eventTimestamp);
    var white := if d != [] then 0 else c.white;
    var first := c.count == FIRST_WHITE;
    Calibration(if c.count + 1 == CYCLE then 0 else c.count + 1,
                if first then t.timestamp else white,
                c.shown + [c.count >= FIRST_WHITE],
                c.deltas + d,
                c.clears + (if first then 1 else 0))
  }

  /** The loop's state after the first `n` passes, all of which went through. */
  function Calibrating(ticks: seq<CalTick>, n: nat): Calibration
    requires n <= |ticks|
  {
    if n == 0 then Calibration(0, 0, [], [], 0) else Pass(Calibrating(ticks, n - 1), ticks[n - 1])
  }

  /** How many first-white frames the first `n` frames contain. */
  function FirstWhites(n: nat): nat {
    (n + CYCLE - 1 - FIRST_WHITE) / CYCLE
  }

  /** The cycle: after n frames the counter is n mod 12, so it stays within
      0..11; frame k is white iff k mod 12 is 6 or more; the external event
      is cleared once per cycle, at its first white frame; and each recorded
      white frame yields at most one latency, so there are never more
      latencies than first-white frames. */
  lemma {:induction false} CalibrationCycle(ticks: seq<CalTick>, n: nat)
    requires n <= |ticks|
    ensures var c := Calibrating(ticks, n);
      && c.count == n % CYCLE
      && |c.shown| == n
      && (forall k | 0 <= k < n :: c.shown[k] <==> k % CYCLE >= FIRST_WHITE)
      && c.clears == FirstWhites(n)
      && |c.deltas| + (if c.white != 0 then 1 else 0) <= FirstWhites(n)
  {
    if n != 0 {
      CalibrationCycle(ticks, n - 1);
      var b := Calibrating(ticks, n - 1);
      FirstWhitesStep(n - 1);
      assert b.count == (n - 1) % CYCLE;
      var c := Calibrating(ticks, n);
      assert c.shown == b.shown + [b.count >= FIRST_WHITE];
      forall k | 0 <= k < n
        ensures c.shown[k] <==> k % CYCLE >= FIRST_WHITE
      {
        if k < n - 1 {
          assert c.shown[k] == b.shown[k];
        }
      }
    }
  }

  /** Frame `m` adds a first-white frame exactly when it sits at the sixth
      position of its cycle. */
  lemma {:induction false} FirstWhitesStep(m: nat)
    ensures FirstWhites(m + 1) == FirstWhites(m) + (if m % CYCLE == FIRST_WHITE then 1 else 0)
    ensures (if m % CYCLE + 1 == CYCLE then 0 else m % CYCLE + 1) == (m + 1) % CYCLE
  {
    var q, r := m / CYCLE, m % CYCLE;
    assert m == q * CYCLE + r;
    if r < FIRST_WHITE {
      assert m + CYCLE - 1 - FIRST_WHITE == q * CYCLE + (r + 5);
      assert m + CYCLE - FIRST_WHITE == q * CYCLE + (r + 6);
    } else {
      assert m + CYCLE - 1 - FIRST_WHITE == (q + 1) * CYCLE + (r - 7);
      assert m + CYCLE - FIRST_WHITE == (q + 1) * CYCLE + (r - 6);
    }
  }

  /** A pass that was not stopped, found the event thread alive and
      displayed its frame. */
  predicate WentThrough(t: CalTick) {
    !t.stop && t.eventThreadAlive && t.displayed
  }

  /** Why the calibration loop ended. Passes running out count as a stop. */
  datatype CalExit = Stopped | EventThreadDied | DisplayFailed

  /** The calibration loop of `run` over the given passes. Returns the passes
      completed, why the loop ended, and the loop's state, which includes the
      latency measured (and the event taken) in a pass whose display failed. */
  method Calibrate(ticks: seq<CalTick>) returns (passes: nat, exit: CalExit, c: Calibration)
    ensures passes <= |ticks|
    ensures forall k | 0 <= k < passes :: WentThrough(ticks[k])
    ensures exit == Stopped ==> (passes == |ticks| || ticks[passes].stop) && c == Calibrating(ticks, passes)
    ensures exit == EventThreadDied ==>
      && passes < |ticks| && !ticks[passes].stop && !ticks[passes].eventThreadAlive
      && c == Calibrating(ticks, passes)
    ensures exit == DisplayFailed ==>
      && passes < |ticks| && !ticks[passes].stop && ticks[passes].eventThreadAlive && !ticks[passes].displayed
      && var b := Calibrating(ticks, passes);
         c == b.(deltas := b.deltas + DeltaOf(b.white, ticks[passes].eventTimestamp),
                  white := if DeltaOf(b.white, ticks[passes].eventTimestamp) != [] then 0 else b.white)
  {
    passes, exit := 0, Stopped;
    var count: int, whiteFrameTimestamp: uint64 := 0, 0;
    var shown, deltas, clears := [], [], 0;
    while passes < |ticks| && !ticks[passes].stop
      invariant passes <= |ticks|
      invariant forall k | 0 <= k < passes :: WentThrough(ticks[k])
      invariant Calibrating(ticks, passes) == Calibration(count, whiteFrameTimestamp, shown, deltas, clears)
    {
      var t := ticks[passes];
      if !t.eventThreadAlive {
        exit := EventThreadDied;
        break;
      }
      ghost var before := Calibration(count, whiteFrameTimestamp, shown, deltas, clears);
      var delta;
      delta, whiteFrameTimestamp := Latency(whiteFrameTimestamp, t.eventTimestamp);
      deltas := deltas + delta;
      var whiteFrame := count >= FIRST_WHITE;
      var firstWhiteFrame := count == FIRST_WHITE;
      if !t.displayed {
        exit := DisplayFailed;
        break;
      }
      shown := shown + [whiteFrame];
      if firstWhiteFrame {
        clears := clears + 1;
        whiteFrameTimestamp := t.timestamp;
      }
      count := count + 1;
      if count == CYCLE {
        count := 0;
      }
      assert Calibration(count, whiteFrameTimestamp, shown, deltas, clears) == Pass(before, t);
      assert forall k | 0 <= k < passes + 1 :: WentThrough(ticks[k]) by {
        assert WentThrough(t);
      }
      passes := passes + 1;
    }
    c := Calibration(count, whiteFrameTimestamp, shown, deltas, clears);
  }

  /** The latency check at the head of a pass: an event later than the
      recorded white frame yields a latency and consumes the record. */
  method Latency(white0: uint64, eventTimestamp: uint64) returns (delta: seq<uint32>, white: uint64)
    ensures delta == DeltaOf(white0, eventTimestamp)
    ensures white == if delta != [] then 0 else white0
  {
    delta, white := [], white0;
    if eventTimestamp != 0 && white0 != 0 && eventTimestamp > white0 {
      delta := [ToUint32((eventTimestamp - white0) / 1000)];
      white := 0;
    }
  }

  /** What the stage does outside its loop, in order. */
  datatype Action = ReportError(message: string) | SpawnEventThread | DestroyWindow
                  | TerminateEventThread | ReleaseTimingCard

  class CalibrationThread {
    const x: uint32
    const y: uint32

    constructor (x1: uint32, y1: uint32)
      ensures x == x1 && y == y1
    {
      x, y := x1, y1;
    }

    /** `run`: initialise the timing card and create the window (reporting
        an error and returning 1 when either fails), start the event thread
        and run the calibration loop; a dead event thread or a failed display
        reports an error and ends it, the latter also destroying the window.
        On the way out the event thread is stopped if it still runs, before
        the window is destroyed and the timing card released. */
    method Run(cardOk: bool, windowOk: bool, windowError: string, ticks: seq<CalTick>, eventRunningAtExit: bool)
      returns (status: uint32, passes: nat, exit: CalExit, c: Calibration, actions: seq<Action>)
      ensures !cardOk ==> status == 1 && passes == 0 && actions == [ReportError(CARD_ERROR)]
      ensures cardOk && !windowOk ==>
        status == 1 && passes == 0 && actions == [ReportError(WINDOW_ERROR + windowError + "\n")]
      ensures cardOk && windowOk ==>
        && status == 0 && passes <= |ticks|
        && (exit == Stopped ==> passes == |ticks| || ticks[passes].stop)
        && (exit != Stopped ==> passes < |ticks| && !ticks[passes].stop)
        && Calibrating(ticks, passes).shown == c.shown
        && Calibrating(ticks, passes).clears == c.clears
        && actions == [SpawnEventThread]
          + (match exit
             case Stopped => []
             case EventThreadDied => [ReportError(EVENT_THREAD_DIED)]
             case DisplayFailed => [ReportError(DISPLAY_ERROR + ticks[passes].displayError + "\n"), DestroyWindow])
          + (if eventRunningAtExit then [TerminateEventThread] else [])
          + [DestroyWindow, ReleaseTimingCard]
    {
      passes, exit, c := 0, Stopped, Calibration(0, 0, [], [], 0);
      if !cardOk {
        return 1, passes, exit, c, [ReportError(CARD_ERROR)];
      }
      if !windowOk {
        return 1, passes, exit, c, [ReportError(WINDOW_ERROR + windowError + "\n")];
      }
      actions := [SpawnEventThread];
      passes, exit, c := Calibrate(ticks);
      match exit {
        case Stopped =>
        case EventThreadDied =>
          actions := actions + [ReportError(EVENT_THREAD_DIED)];
        case DisplayFailed =>
          actions := actions + [ReportError(DISPLAY_ERROR + ticks[passes].displayError + "\n"), DestroyWindow];
      }
      if eventRunningAtExit {
        actions := actions + [TerminateEventThread];
      }
      actions := actions + [DestroyWindow, ReleaseTimingCard];
      status := 0;
    }
  }
}
