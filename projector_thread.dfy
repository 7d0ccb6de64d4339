/** The presentation stage (`ProjectorThread`): takes decoded frames from its
    input queue, shows each on the projector window, reports the playback
    position to the renderer, and forwards the frame to its output queue. */
module ProjectorStage {
  import opened Wrappers
  import opened Ints
  import opened Frames

  const WINDOW_ERROR: string := "ERROR: Failed to create projector window.\n"
  const DISPLAY_ERROR: string := "ERROR: Failed to display projector frame.\n"

  /** How long a frame stays on screen, in milliseconds: the integer part of
      1000/fps, plus one. With fps 0 the division gives infinity, whose
      conversion to `int32_t` yields the x86 "integer indefinite" value
      -2^31, so the sum wraps to 2^31 + 1 as a `uint32_t`. */
  function DurationMs(fps: uint32): (ms: uint32)
    ensures fps > 0 ==> ms * fps <= 1000 + fps && 1000 < ms * fps
    ensures fps > 1000 ==> ms == 1
  {
    if fps == 0 then ToUint32(-TWO_31 + 1) else 1000 / fps + 1
  }

  /** The position reported for a frame: its timestamp plus its duration, in
      `uint64_t` arithmetic. */
  function Position(f: FrameWrapper): (pos: uint64)
    reads f
    ensures f.timestampMs + DurationMs(f.fps) < TWO_64 ==> pos == f.timestampMs + DurationMs(f.fps)
  {
    (f.timestampMs + DurationMs(f.fps)) % TWO_64
  }

  /** What the stage does, in order. */
  datatype Action = Log(message: string) | Display(frame: FrameWrapper) | Report(position: uint64)
                  | Forward(frame: FrameWrapper) | DestroyWindow

  /** One pass of the loop: the stop flag, the frame `waitItem` returned
      within 10 ms, if any, and whether displaying it succeeded. */
  datatype ShowTick = ShowTick(stop: bool, item: Option<FrameWrapper>, displayed: bool)

  function Dequeued(ticks: seq<ShowTick>): set<FrameWrapper> {
    set k | 0 <= k < |ticks| && ticks[k].item.Some? :: ticks[k].item.value
  }

  /** The frames dequeued over the first `n` passes, in order. */
  function Items(ticks: seq<ShowTick>, n: nat): (fs: seq<FrameWrapper>)
    requires n <= |ticks|
    ensures |fs| <= n
  {
    if n == 0 then []
    else Items(ticks, n - 1) + Dequeue(ticks[n - 1])
  }

  /** The frame a pass dequeued, if any. */
  function Dequeue(t: ShowTick): (fs: seq<FrameWrapper>)
    ensures |fs| <= 1
  {
    match t.item case None => [] case Some(f) => [f]
  }

  /** The actions of the first `n` passes, all of which went through: each
      frame is displayed, its position reported, and then it is forwarded. */
  function Shown(ticks: seq<ShowTick>, n: nat): seq<Action>
    requires n <= |ticks|
    reads Dequeued(ticks)
  {
    if n == 0 then [] else Shown(ticks, n - 1) + PassShown(ticks[n - 1])
  }

  /** The actions of one pass that went through. */
  function PassShown(t: ShowTick): seq<Action>
    reads if t.item.Some? then {t.item.value} else {}
  {
    match t.item
    case None => []
    case Some(f) => [Display(f), Report(Position(f)), Forward(f)]
  }

  /** The frames reach the output queue in the order they were dequeued, and
      every one of them was displayed and its position reported, in that
      order, before it was forwarded. */
  lemma {:induction false} ShownInOrder(ticks: seq<ShowTick>, n: nat)
    requires n <= |ticks|
    ensures var a, fs := Shown(ticks, n), Items(ticks, n);
      && |a| == 3 * |fs|
      && forall k | 0 <= k < |fs| ::
           a[3 * k] == Display(fs[k]) && a[3 * k + 1] == Report(Position(fs[k])) && a[3 * k + 2] == Forward(fs[k])
  {
    if n != 0 {
      ShownInOrder(ticks, n - 1);
      var t := ticks[n - 1];
      var a0, fs0 := Shown(ticks, n - 1), Items(ticks, n - 1);
      var a, fs := Shown(ticks, n), Items(ticks, n);
      assert a == a0 + PassShown(t);
      assert fs == fs0 + Dequeue(t);
      forall k | 0 <= k < |fs|
        ensures a[3 * k] == Display(fs[k]) && a[3 * k + 1] == Report(Position(fs[k])) && a[3 * k + 2] == Forward(fs[k])
      {
        if k < |fs0| {
          assert fs[k] == fs0[k];
          assert a[3 * k] == a0[3 * k] && a[3 * k + 1] == a0[3 * k + 1] && a[3 * k + 2] == a0[3 * k + 2];
        } else {
          var f := t.item.value;
          assert fs[k] == f;
          assert PassShown(t) == [Display(f), Report(Position(f)), Forward(f)];
        }
      }
    }
  }

  /** The output queue receives exactly the frames the stage dequeued. */
  function Forwarded(actions: seq<Action>): seq<FrameWrapper> {
    if actions == [] then []
    else Forwarded(actions[..|actions| - 1]) + (if actions[|actions| - 1].Forward? then [actions[|actions| - 1].frame] else [])
  }

  lemma {:induction false} ForwardedShown(ticks: seq<ShowTick>, n: nat)
    requires n <= |ticks|
    ensures Forwarded(Shown(ticks, n)) == Items(ticks, n)
  {
    if n != 0 {
      var prior, pass := Shown(ticks, n - 1), PassShown(ticks[n - 1]);
      assert Shown(ticks, n) == prior + pass;
      assert Items(ticks, n) == Items(ticks, n - 1) + Dequeue(ticks[n - 1]);
      ForwardedShown(ticks, n - 1);
      ForwardedAppend(prior, pass);
      ForwardedPass(ticks[n - 1]);
    }
  }

  /** A pass forwards the frame it dequeued, if any. */
  lemma {:induction false} ForwardedPass(t: ShowTick)
    ensures Forwarded(PassShown(t)) == Dequeue(t)
  {
    if t.item.Some? {
      var f := t.item.value;
      var d, r, a := [Display(f)], [Display(f), Report(Position(f))], PassShown(t);
      assert d[..0] == [] && r[..1] == d && a[..2] == r;
      assert Forwarded(d) == [];
      assert Forwarded(r) == [];
    }
  }

  lemma {:induction false} ForwardedAppend(a: seq<Action>, b: seq<Action>)
    ensures Forwarded(a + b) == Forwarded(a) + Forwarded(b)
    decreases |b|
  {
    if b == [] {
      assert a + b == a;
    } else {
      assert (a + b)[..|a + b| - 1] == a + b[..|b| - 1];
      ForwardedAppend(a, b[..|b| - 1]);
    }
  }

  class ProjectorThread {
    const x: int32
    const y: int32
    const scaleToFit: bool

    constructor (xi: int32, yi: int32, scale: bool)
      ensures x == xi && y == yi && scaleToFit == scale
    {
      x, y, scaleToFit := xi, yi, scale;
    }

    /** `run`: create the window (or log and return 1), then show frames
        until stopped, and destroy the window. A failed display logs,
        destroys the window and returns 1 without reporting or forwarding
        that frame. Returns the status, the passes completed and the
        actions in order. */
    method Run(created: bool, ticks: seq<ShowTick>) returns (status: uint32, passes: nat, actions: seq<Action>)
      ensures passes <= |ticks|
      ensures !created ==> status == 1 && passes == 0 && actions == [Log(WINDOW_ERROR)]
      ensures created ==> forall k | 0 <= k < passes :: !ticks[k].stop && (ticks[k].item.Some? ==> ticks[k].displayed)
      ensures created && status == 0 ==>
        && (passes == |ticks| || ticks[passes].stop)
        && actions == Shown(ticks, passes) + [DestroyWindow]
      ensures created && status != 0 ==>
        && status == 1 && passes < |ticks| && !ticks[passes].stop
        && ticks[passes].item.Some? && !ticks[passes].displayed
        && actions == Shown(ticks, passes) + [Display(ticks[passes].item.value), Log(DISPLAY_ERROR), DestroyWindow]
    {
      passes := 0;
      if !created {
        return 1, 0, [Log(WINDOW_ERROR)];
      }
      actions := [];
      while passes < |ticks| && !ticks[passes].stop
        invariant passes <= |ticks|
        invariant forall k | 0 <= k < passes :: !ticks[k].stop && (ticks[k].item.Some? ==> ticks[k].displayed)
        invariant actions == Shown(ticks, passes)
      {
        var t := ticks[passes];
        if t.item.None? {
          assert PassShown(t) == [];
          assert Shown(ticks, passes + 1) == Shown(ticks, passes) + PassShown(t);
          passes := passes + 1;
          continue;
        }
        ghost var before := actions;
        var wrapper := t.item.value;
        actions := actions + [Display(wrapper)];
        if !t.displayed {
          return 1, passes, actions + [Log(DISPLAY_ERROR), DestroyWindow];
        }
        actions := actions + [Report(Position(wrapper)), Forward(wrapper)];
        assert actions == before + [Display(wrapper), Report(Position(wrapper)), Forward(wrapper)];
        assert Shown(ticks, passes + 1) == before + PassShown(t);
        passes := passes + 1;
      }
      actions := actions + [DestroyWindow];
      status := 0;
    }
  }
}
