/** The capture stage (`RecordThread`): takes captured frames from the pending
    queue, writes each to the encoder (the owned, resized buffer when there is
    one, else Electron's), hands a newly created preview channel name to the
    preview sender once, and forwards the frame to the sender's queue. */
module RecordStage {
  import opened Wrappers
  import opened Ints
  import opened Frames
  import opened ChildProcess
  import opened Ffmpeg
  import opened Handoff

  /** One pass of the capture loop: the stop flag; the frame `waitItem`
      returned within 10 ms, if any; the byte count the encoder's stdin
      accepted for it (-1 on failure); and the channel name `setPreviewChannel`
      stored since the previous pass, if it was called. */
  datatype RecordTick = RecordTick(stop: bool, item: Option<FrameWrapper>, written: int, setChannel: Option<string>)

  /** A buffer handed to the encoder: pointer and length (`uint32_t`). */
  datatype Buffer = Buffer(data: nat, length: uint32)

  /** The buffer written for a frame: the owned one when its pointer is
      non-null, else the borrowed one; the `size_t` length is narrowed to
      `uint32_t`. */
  function BufferOf(f: FrameWrapper): (b: Buffer)
    reads f
    ensures f.nativeFrame != 0 ==> b.data == f.nativeFrame && b.length == ToUint32(f.nativeLength)
    ensures f.nativeFrame == 0 ==> b.data == f.electronFrame && b.length == ToUint32(f.electronLength)
  {
    if f.nativeFrame != 0 then Buffer(f.nativeFrame, ToUint32(f.nativeLength))
    else Buffer(f.electronFrame, ToUint32(f.electronLength))
  }

  /** The frames dequeued over a run of passes, in order. */
  function Items(ticks: seq<RecordTick>, n: nat): (fs: seq<FrameWrapper>)
    requires n <= |ticks|
    ensures |fs| <= n
  {
    if n == 0 then []
    else Items(ticks, n - 1) + (match ticks[n - 1].item case None => [] case Some(f) => [f])
  }

  /** What a pass does to the stored preview channel name: a pass that
      forwards a frame reaches the hand-over step. */
  function EventOf(t: RecordTick): (e: Event)
    ensures e.setChannel == t.setChannel && (e.delivered <==> t.item.Some?)
  {
    Event(t.setChannel, t.item.Some?)
  }

  /** The hand-over events of the first `n` passes. */
  function Events(ticks: seq<RecordTick>, n: nat): (es: seq<Event>)
    requires n <= |ticks|
    ensures |es| == n
  {
    if n == 0 then [] else Events(ticks, n - 1) + [EventOf(ticks[n - 1])]
  }

  /** A pass that went through: no stop was requested and, if it dequeued a
      frame, the encoder accepted all of it. */
  predicate Completes(encoder: EncoderProcess, t: RecordTick)
    reads encoder, encoder.handles, if t.item.Some? then {t.item.value} else {}
    requires t.item.Some? ==> -1 <= t.written <= BufferOf(t.item.value).length
  {
    !t.stop && (t.item.Some? ==> encoder.WriteStdin(BufferOf(t.item.value).length, t.written))
  }

  /** The frames a run of passes dequeued. */
  function Dequeued(ticks: seq<RecordTick>): set<FrameWrapper> {
    set k | 0 <= k < |ticks| && ticks[k].item.Some? :: ticks[k].item.value
  }

  /** What the platform can answer: each write reports -1 or at most the
      length of the buffer written. */
  predicate WritesInRange(ticks: seq<RecordTick>)
    reads Dequeued(ticks)
  {
    forall k | 0 <= k < |ticks| :: ticks[k].item.Some? ==> -1 <= ticks[k].written <= BufferOf(ticks[k].item.value).length
  }

  /** What a run of passes has done so far: the buffers written to the
      encoder, the frames forwarded to the preview sender, the names handed to
      it, and the name still stored. */
  datatype Progress = Progress(writes: seq<Buffer>, forwarded: seq<FrameWrapper>, handed: seq<string>, channel: string)

  /** The progress after one more pass that went through: a dequeued frame's
      buffer is written and the frame forwarded, and the stored name follows
      `Handoff`. */
  function PassProgress(p: Progress, t: RecordTick): Progress
    reads if t.item.Some? then {t.item.value} else {}
  {
    var e := EventOf(t);
    match t.item
    case None => Progress(p.writes, p.forwarded, p.handed, After(p.channel, e))
    case Some(f) => Progress(p.writes + [BufferOf(f)], p.forwarded + [f], p.handed + HandedIn(p.channel, e), After(p.channel, e))
  }

  /** The progress of the first `n` passes, all of which went through, from
      the stored name `channel0`. */
  function Captured(ticks: seq<RecordTick>, n: nat, channel0: string): (p: Progress)
    requires n <= |ticks|
    reads Dequeued(ticks)
  {
    if n == 0 then Progress([], [], [], channel0) else PassProgress(Captured(ticks, n - 1, channel0), ticks[n - 1])
  }

  /** Why the capture loop ended. Passes running out count as a stop. */
  datatype RecordExit = StopRequested | EncoderWriteFailed

  class RecordThread {
    const ffmpegPath: string
    const width: uint32
    const height: uint32
    const fps: uint32
    const outputPath: string
    /** The channel name waiting to be handed to the preview sender. */
    var channelName: string

    constructor (ffmpeg: string, w: uint32, h: uint32, f: uint32, output: string)
      ensures ffmpegPath == ffmpeg && width == w && height == h && fps == f && outputPath == output
      ensures channelName == ""
    {
      ffmpegPath, width, height, fps, outputPath := ffmpeg, w, h, f, output;
      channelName := "";
    }

    /** `setPreviewChannel`: store the name for the next forwarded frame. */
    method SetPreviewChannel(name: string)
      modifies this
      ensures channelName == name
    {
      channelName := name;
    }

    /** The capture loop of `run` (see `Capture`). After a failed write the
        stored channel name is what the earlier passes left, or the name
        stored during the failing pass, which is never handed over. */
    method RunLoop(encoder: EncoderProcess, ticks: seq<RecordTick>)
      returns (passes: nat, exit: RecordExit, writes: seq<Buffer>, forwarded: seq<FrameWrapper>, handed: seq<string>)
      requires WritesInRange(ticks)
      modifies this
      ensures passes <= |ticks|
      ensures forall k | 0 <= k < passes :: Completes(encoder, ticks[k])
      ensures exit == StopRequested ==> passes == |ticks| || ticks[passes].stop
      ensures exit == EncoderWriteFailed ==>
        && passes < |ticks| && !ticks[passes].stop && ticks[passes].item.Some?
        && !encoder.WriteStdin(BufferOf(ticks[passes].item.value).length, ticks[passes].written)
      ensures forwarded == Items(ticks, passes)
      ensures |writes| == |forwarded| + (if exit == EncoderWriteFailed then 1 else 0)
      ensures forall k | 0 <= k < |forwarded| :: writes[k] == BufferOf(forwarded[k])
      ensures exit == EncoderWriteFailed ==> writes[|forwarded|] == BufferOf(ticks[passes].item.value)
      ensures var o := Run(old(channelName), Events(ticks, passes));
        && handed == o.handed
        && channelName == if exit == StopRequested then o.pending else Stored(o.pending, EventOf(ticks[passes]))
    {
      var channel;
      passes, exit, writes, forwarded, handed, channel := Capture(encoder, ticks, channelName);
      CapturedForwardsItems(ticks, passes, channelName);
      CapturedHandsOver(ticks, passes, channelName);
      channelName := channel;
    }

    /** The end of `run`: wait for the encoder to finish (closing its stdin)
        only if its process still runs, then stop the preview sender if it
        still runs. */
    method Shutdown(encoder: EncoderProcess, processRunning: bool, senderRunning: bool)
      returns (waited: bool, senderStopped: bool)
      requires encoder.handles.Valid()
      modifies encoder.handles
      ensures encoder.handles.Valid()
      ensures waited <==> encoder.handles.IsProcessRunning(processRunning)
      ensures waited ==> (encoder.handles.stdin == 0
        && encoder.handles.closed == old(encoder.handles.closed)
          + (if old(encoder.handles.stdin) != 0 then [old(encoder.handles.stdin)] else []))
      ensures !waited ==> unchanged(encoder.handles)
      ensures senderStopped == senderRunning
    {
      waited := encoder.handles.IsProcessRunning(processRunning);
      if waited {
        encoder.handles.WaitForExit();
      }
      senderStopped := senderRunning;
    }
  }

/** The capture loop of `run` over the given passes, with `encoder`
    already started and `channel0` the pending preview channel name. Returns
    the passes completed, why the loop ended, every buffer written to the
    encoder (the failed one included), the frames forwarded to the preview
    sender, the names handed to it and the name still pending. */
  method Capture(encoder: EncoderProcess, ticks: seq<RecordTick>, channel0: string)
    returns (passes: nat, exit: RecordExit, writes: seq<Buffer>, forwarded: seq<FrameWrapper>, handed: seq<string>, channel: string)
    requires WritesInRange(ticks)
    ensures passes <= |ticks|
    ensures forall k | 0 <= k < passes :: Completes(encoder, ticks[k])
    ensures exit == StopRequested ==> passes == |ticks| || ticks[passes].stop
    ensures exit == EncoderWriteFailed ==>
      && passes < |ticks| && !ticks[passes].stop && ticks[passes].item.Some?
      && !encoder.WriteStdin(BufferOf(ticks[passes].item.value).length, ticks[passes].written)
    ensures var p := Captured(ticks, passes, channel0);
      && writes == p.writes + (if exit == EncoderWriteFailed then [BufferOf(ticks[passes].item.value)] else [])
      && forwarded == p.forwarded && handed == p.handed
      && (exit == StopRequested ==> channel == p.channel)
      && (exit == EncoderWriteFailed ==> channel == Stored(p.channel, EventOf(ticks[passes])))
  {
    passes, exit, writes, forwarded, handed := 0, StopRequested, [], [], [];
    channel := channel0;
    while passes < |ticks|
      invariant passes <= |ticks|
      invariant forall k | 0 <= k < passes :: Completes(encoder, ticks[k])
      invariant Captured(ticks, passes, channel0) == Progress(writes, forwarded, handed, channel)
    {
      var t := ticks[passes];
      if t.stop {
        break;
      }
      ghost var before := Progress(writes, forwarded, handed, channel);
      var name := if t.setChannel.Some? then t.setChannel.value else channel;
      assert name == Stored(channel, EventOf(t));
      if t.item.None? {
        channel := name;
        assert Progress(writes, forwarded, handed, channel) == PassProgress(before, t);
        passes := passes + 1;
        continue;
      }
      var wrapper := t.item.value;
      var buffer := BufferOf(wrapper);
      writes := writes + [buffer];
      if !encoder.WriteStdin(buffer.length, t.written) {
        // The name stored during this pass stays stored.
        channel := name;
        exit := EncoderWriteFailed;
        break;
      }
      if name != "" {
        handed := handed + [name];
      }
      channel := "";
      forwarded := forwarded + [wrapper];
      assert Progress(writes, forwarded, handed, channel) == PassProgress(before, t);
      passes := passes + 1;
    }
  }

  /** The capture loop forwards exactly the frames it dequeued, in order,
      and writes each one's buffer before forwarding it. */
  lemma {:induction false} CapturedForwardsItems(ticks: seq<RecordTick>, n: nat, channel0: string)
    requires n <= |ticks|
    ensures var p := Captured(ticks, n, channel0);
      && p.forwarded == Items(ticks, n)
      && |p.writes| == |p.forwarded|
      && forall k | 0 <= k < |p.writes| :: p.writes[k] == BufferOf(p.forwarded[k])
  {
    if n != 0 {
      CapturedForwardsItems(ticks, n - 1, channel0);
    }
  }

  /** The capture loop follows the hand-over of `Handoff`: the names handed
      to the preview sender and the name left stored are those of `Run` over
      the passes' events, each name being handed over once and only on a
      pass that forwarded a frame. */
  lemma {:induction false} CapturedHandsOver(ticks: seq<RecordTick>, n: nat, channel0: string)
    requires n <= |ticks|
    ensures var p := Captured(ticks, n, channel0);
      Run(channel0, Events(ticks, n)) == Outcome(p.channel, p.handed)
  {
    if n != 0 {
      CapturedHandsOver(ticks, n - 1, channel0);
      Step(channel0, Events(ticks, n - 1), EventOf(ticks[n - 1]));
    }
  }
}
