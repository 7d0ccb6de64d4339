/** The external-event thread (`ExternalEventThread`): waits for hardware
    events and keeps the latest event timestamp in a one-slot mailbox that
    `getEventTimestamp` empties. */
module ExternalEvent {

  /** One pass of the event loop: the stop flag, then whether
      `waitForExternalEvent` saw an event within 10 ms, and its timestamp. */
  datatype EventTick = EventTick(stop: bool, detected: bool, timestampUsec: nat)

  /** The slot after a run of passes that did not stop: the last detected
      event's timestamp, or the initial value if none was detected. */
  function LatestEvent(ticks: seq<EventTick>, initial: nat): (slot: nat)
    ensures slot == initial || exists k | 0 <= k < |ticks| :: ticks[k].detected && slot == ticks[k].timestampUsec
  {
    if ticks == [] then initial
    else if ticks[|ticks| - 1].detected then ticks[|ticks| - 1].timestampUsec
    else LatestEvent(ticks[..|ticks| - 1], initial)
  }

  /** Latest wins: the slot holds the timestamp of the last detection, and
      earlier unread timestamps are overwritten. */
  lemma {:induction false} LatestEventIsLast(ticks: seq<EventTick>, initial: nat, k: nat)
    requires k < |ticks| && ticks[k].detected
    requires forall j | k < j < |ticks| :: !ticks[j].detected
    ensures LatestEvent(ticks, initial) == ticks[k].timestampUsec
    decreases |ticks|
  {
    if k < |ticks| - 1 {
      LatestEventIsLast(ticks[..|ticks| - 1], initial, k);
    }
  }

  /** Without any detection the slot keeps its value. */
  lemma {:induction false} LatestEventWithoutDetection(ticks: seq<EventTick>, initial: nat)
    requires forall j | 0 <= j < |ticks| :: !ticks[j].detected
    ensures LatestEvent(ticks, initial) == initial
  {
    if ticks != [] {
      LatestEventWithoutDetection(ticks[..|ticks| - 1], initial);
    }
  }

  class ExternalEventThread {
    /** The one-slot mailbox (microseconds; 0 means "no event"). */
    var eventTimestamp: nat
    /** Whether the platform's event detection is currently started. */
    var detecting: bool

    constructor ()
      ensures eventTimestamp == 0 && !detecting
    {
      eventTimestamp := 0;
      detecting := false;
    }

    /** `getEventTimestamp`: take the stored value and reset the slot to 0. */
    method GetEventTimestamp() returns (timestamp: nat)
      modifies this
      ensures timestamp == old(eventTimestamp) && eventTimestamp == 0
      ensures detecting == old(detecting)
    {
      timestamp := eventTimestamp;
      eventTimestamp := 0;
    }

    /** `run`: start detection (or return 1), then store every detected
        event's timestamp until stopped, then stop detection and return 0. */
    method Run(started: bool, ticks: seq<EventTick>) returns (status: nat, passes: nat)
      requires !detecting
      modifies this
      ensures !detecting
      ensures !started ==> status == 1 && passes == 0 && eventTimestamp == old(eventTimestamp)
      ensures started ==> status == 0
      ensures passes <= |ticks|
      ensures started && passes < |ticks| ==> ticks[passes].stop
      ensures forall k | 0 <= k < passes :: !ticks[k].stop
      ensures eventTimestamp == LatestEvent(ticks[..passes], old(eventTimestamp))
    {
      passes := 0;
      if !started {
        return 1, 0;
      }
      detecting := true;
      while passes < |ticks| && !ticks[passes].stop
        invariant passes <= |ticks|
        invariant forall k | 0 <= k < passes :: !ticks[k].stop
        invariant eventTimestamp == LatestEvent(ticks[..passes], old(eventTimestamp))
      {
        assert ticks[..passes + 1][..passes] == ticks[..passes];
        if ticks[passes].detected {
          eventTimestamp := ticks[passes].timestampUsec;
        }
        passes := passes + 1;
      }
      detecting := false;
      status := 0;
    }
  }
}
