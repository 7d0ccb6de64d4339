/** The preview channel hand-over shared by the capture and playback stages:
    `setPreviewChannel` stores a name under a mutex, and the stage's loop
    passes a stored, non-empty name on to its preview sender and clears it
    after a pass that delivered frame data. */
module Handoff {
  import opened Wrappers

  /** What one pass of a stage's loop does to the stored name: the name a
      `setPreviewChannel` call stored during it, if any, and whether the
      pass reached the hand-over step. */
  datatype Event = Event(setChannel: Option<string>, delivered: bool)

  /** The stored name once the pass's `setPreviewChannel` call is applied. */
  function Stored(channel: string, e: Event): string {
    if e.setChannel.Some? then e.setChannel.value else channel
  }

  /** The stored name after a pass: a pass that reaches the hand-over step
      leaves it empty. */
  function After(channel: string, e: Event): (c: string)
    ensures e.delivered ==> c == ""
    ensures !e.delivered ==> c == Stored(channel, e)
  {
    if e.delivered then "" else Stored(channel, e)
  }

  /** The names handed to the sender during one pass: the stored name if the
      pass reaches the hand-over step and the name is not empty. */
  function HandedIn(channel: string, e: Event): (names: seq<string>)
    ensures |names| <= 1
    ensures forall k | 0 <= k < |names| :: names[k] != ""
  {
    var c := Stored(channel, e);
    if e.delivered && c != "" then [c] else []
  }

  /** The stored name and the names handed over so far. */
  datatype Outcome = Outcome(pending: string, handed: seq<string>)

  /** A run of passes from `channel` stored: the name stored after it, and
      the names handed to the sender during it, in order. */
  function Run(channel: string, es: seq<Event>): (o: Outcome)
    ensures forall k | 0 <= k < |o.handed| :: o.handed[k] != ""
  {
    if es == [] then Outcome(channel, [])
    else
      var o := Run(channel, es[..|es| - 1]);
      var e := es[|es| - 1];
      Outcome(After(o.pending, e), o.handed + HandedIn(o.pending, e))
  }

  /** How many `setPreviewChannel` calls a run of passes saw. */
  function Sets(es: seq<Event>): nat {
    if es == [] then 0 else Sets(es[..|es| - 1]) + (if es[|es| - 1].setChannel.Some? then 1 else 0)
  }

  /** One more pass. */
  lemma {:induction false} Step(channel: string, es: seq<Event>, e: Event)
    ensures var o := Run(channel, es);
      Run(channel, es + [e]) == Outcome(After(o.pending, e), o.handed + HandedIn(o.pending, e))
    ensures Sets(es + [e]) == Sets(es) + (if e.setChannel.Some? then 1 else 0)
  {
    assert (es + [e])[..|es|] == es;
  }

  /** A name is handed over at most once: there are never more hand-overs
      than names stored (the initial one included), and a name still pending
      has not been handed over yet. */
  lemma {:induction false} HandedAtMostOnce(channel: string, es: seq<Event>)
    ensures var o := Run(channel, es);
      |o.handed| + (if o.pending != "" then 1 else 0) <= Sets(es) + (if channel != "" then 1 else 0)
  {
    if es != [] {
      HandedAtMostOnce(channel, es[..|es| - 1]);
    }
  }

  /** Without `setPreviewChannel` calls and with nothing stored, nothing is
      ever handed over. */
  lemma {:induction false} NothingStoredNothingHanded(es: seq<Event>)
    requires Sets(es) == 0
    ensures Run("", es) == Outcome("", [])
  {
    HandedAtMostOnce("", es);
  }

  /** A stored name is handed over by the first pass that delivers data,
      unless a later call replaced it first. */
  lemma {:induction false} HandedOnFirstDelivery(channel: string, es: seq<Event>)
    requires channel != "" && es != [] && es[|es| - 1].delivered
    requires forall k | 0 <= k < |es| :: es[k].setChannel.None?
    requires forall k | 0 <= k < |es| - 1 :: !es[k].delivered
    ensures Run(channel, es) == Outcome("", [channel])
  {
    UndeliveredKeeps(channel, es[..|es| - 1]);
  }

  /** Passes that neither store a name nor deliver data leave the stored
      name alone and hand nothing over. */
  lemma {:induction false} UndeliveredKeeps(channel: string, es: seq<Event>)
    requires forall k | 0 <= k < |es| :: es[k].setChannel.None? && !es[k].delivered
    ensures Run(channel, es) == Outcome(channel, [])
  {
    if es != [] {
      UndeliveredKeeps(channel, es[..|es| - 1]);
    }
  }
}
