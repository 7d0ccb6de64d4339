/** The module-level state and commands of the native library (`Native.cpp`):
    the initialised/recording/playing/calibrating flags that reject commands
    out of order, frame ids, the owned-buffer decision for captured frames,
    and the preview frame hand-over. The stage threads themselves are modelled
    in their own modules; here a stage is the record of how it was started. */
module Native {
  import opened Wrappers
  import opened Ints
  import opened Frames

  const NotInitialized: string := "Library has not been initialized"
  const RecordingInProgress: string := "Recording already in progress"
  const PlaybackInProgress: string := "Playback already in progress"
  const CalibrationInProgress: string := "Calibration already in progress"
  const NoStageForPreview: string := "Create video input or output before preview channel"
  const PipeNameFailed: string := "Failed to create uniquely named pipe"

  /** How each stage thread was started, and the preview channel name it was
      last given (empty when none). */
  datatype RecordStage = RecordStage(width: uint32, height: uint32, fps: int, outputPath: string, channel: string)
  datatype PlaybackStage = PlaybackStage(x: int, y: int, videos: seq<string>, scaleToFit: bool, channel: string)
  datatype CalibrationStage = CalibrationStage(x: int, y: int)

  /** The frame id assigned to the `k`-th accepted frame since the library was
      loaded: the counter starts at 0 and wraps at 2^32. */
  function IdOf(k: nat): uint32 {
    k % TWO_32
  }

  /** Ids are never reused within 2^32 accepted frames. */
  lemma {:induction false} IdsDistinct(i: nat, j: nat)
    requires i < j < i + TWO_32
    ensures IdOf(i) != IdOf(j)
  {
    var d := j - i;
    var q, r := i / TWO_32, i % TWO_32;
    assert i == q * TWO_32 + r;
    if r + d < TWO_32 {
      DivModUnique(j, TWO_32, q, r + d);
    } else {
      assert j == (q + 1) * TWO_32 + (r + d - TWO_32);
      DivModUnique(j, TWO_32, q + 1, r + d - TWO_32);
    }
  }

  /** A captured frame numbered `number` borrowing Electron's buffer; when
      its size differs from the target size it also owns the resized image
      `resized` at pointer `p`. */
  method NewCapturedFrame(number: uint32, frame: nat, length: nat, w: int32, h: int32,
                          p: nat, resized: seq<bv8>, width: uint32, height: uint32)
    returns (wrapper: FrameWrapper)
    requires p != 0 && |resized| == width * height * 4
    ensures fresh(wrapper) && wrapper.Valid() && wrapper.number == number
    ensures wrapper.electronFrame == frame && wrapper.electronLength == length
    ensures wrapper.electronWidth == ToUint32(w) && wrapper.electronHeight == ToUint32(h)
    ensures wrapper.nativeFrame != 0 <==> w != ToInt32(width) || h != ToInt32(height)
    ensures wrapper.nativeFrame != 0 ==>
      && wrapper.nativeFrame == p && wrapper.nativeBytes == resized
      && wrapper.nativeLength == width * height * 4
      && wrapper.nativeWidth == width && wrapper.nativeHeight == height
    ensures wrapper.nativeFrame == 0 ==> wrapper.nativeLength == 0 && wrapper.nativeBytes == []
  {
    wrapper := new FrameWrapper(number);
    wrapper.electronFrame, wrapper.electronLength := frame, length;
    wrapper.electronWidth, wrapper.electronHeight := ToUint32(w), ToUint32(h);
    if w != ToInt32(width) || h != ToInt32(height) {
      wrapper.AttachNative(p, resized, width, height);
    }
  }

  class Session {
    var ffmpegPath: string
    var ffprobePath: string
    var initialized: bool
    var recording: bool
    var playing: bool
    var calibrating: bool
    var nextFrameId: uint32
    var width: uint32
    var height: uint32
    var recordThread: Option<RecordStage>
    var playbackThread: Option<PlaybackStage>
    var calibrationThread: Option<CalibrationStage>
    /** The channel name the preview receiver was opened on, if it exists. */
    var previewReceiver: Option<string>
    /** The queues shared with the stages: captured frames waiting for the
        record stage, frames the pipeline is done with, and decoded preview
        frames (pointers to images). */
    var pendingFrames: seq<FrameWrapper>
    var completedFrames: seq<FrameWrapper>
    var pendingPreviews: seq<nat>
    /** How many frames have been accepted since the library was loaded. */
    ghost var accepted: nat

    /** Each flag is set exactly while its stage exists, and the id counter
        is the number of accepted frames modulo 2^32. */
    ghost predicate Valid()
      reads this
    {
      && (recording <==> recordThread.Some?)
      && (playing <==> playbackThread.Some?)
      && (calibrating <==> calibrationThread.Some?)
      && nextFrameId == IdOf(accepted)
    }

    /** The library as loaded: every flag false, every counter zero, no stage. */
    constructor ()
      ensures Valid()
      ensures !initialized && !recording && !playing && !calibrating
      ensures nextFrameId == 0 && width == 0 && height == 0 && accepted == 0
      ensures recordThread == None && playbackThread == None && calibrationThread == None
      ensures previewReceiver == None
      ensures pendingFrames == [] && completedFrames == [] && pendingPreviews == []
    {
      ffmpegPath, ffprobePath := "", "";
      initialized, recording, playing, calibrating := false, false, false, false;
      nextFrameId, width, height := 0, 0, 0;
      recordThread, playbackThread, calibrationThread := None, None, None;
      previewReceiver := None;
      pendingFrames, completedFrames, pendingPreviews := [], [], [];
      accepted := 0;
    }

    /** `initialize`: remember the tool paths and accept commands. */
    method Initialize(ffmpeg: string, ffprobe: string)
      requires Valid()
      modifies this
      ensures Valid() && initialized
      ensures ffmpegPath == ffmpeg && ffprobePath == ffprobe
      ensures recording == old(recording) && playing == old(playing) && calibrating == old(calibrating)
      ensures nextFrameId == old(nextFrameId) && accepted == old(accepted)
      ensures width == old(width) && height == old(height)
      ensures recordThread == old(recordThread) && playbackThread == old(playbackThread)
      ensures calibrationThread == old(calibrationThread) && previewReceiver == old(previewReceiver)
      ensures pendingFrames == old(pendingFrames) && completedFrames == old(completedFrames)
      ensures pendingPreviews == old(pendingPreviews)
    {
      ffmpegPath, ffprobePath := ffmpeg, ffprobe;
      initialized := true;
    }

    /** `createVideoOutput`: refused before `initialize` and while recording,
        leaving everything unchanged; otherwise store the target size, start
        the record stage and set the recording flag. */
    method CreateVideoOutput(w: int, h: int, fps: int, outputPath: string) returns (err: string)
      requires Valid()
      modifies this
      ensures Valid()
      ensures !old(initialized) ==> err == NotInitialized && unchanged(this)
      ensures old(initialized) && old(recording) ==> err == RecordingInProgress && unchanged(this)
      ensures old(initialized) && !old(recording) ==>
        && err == "" && recording
        && width == ToUint32(w) && height == ToUint32(h)
        && recordThread == Some(RecordStage(ToUint32(w), ToUint32(h), fps, outputPath, ""))
      ensures initialized == old(initialized) && playing == old(playing) && calibrating == old(calibrating)
      ensures nextFrameId == old(nextFrameId) && accepted == old(accepted)
      ensures playbackThread == old(playbackThread) && calibrationThread == old(calibrationThread)
      ensures previewReceiver == old(previewReceiver)
      ensures pendingFrames == old(pendingFrames) && completedFrames == old(completedFrames)
      ensures pendingPreviews == old(pendingPreviews)
    {
      if !initialized {
        return NotInitialized;
      }
      if recording {
        return RecordingInProgress;
      }
      width, height := ToUint32(w), ToUint32(h);
      recordThread := Some(RecordStage(width, height, fps, outputPath, ""));
      recording := true;
      err := "";
    }

    /** `queueNextFrame`: -1 unless initialised and recording. Otherwise the
        frame gets the next id and borrows Electron's buffer; when its size
        differs from the target it also gets an owned buffer holding the
        resized image (`resized`, at pointer `p`, both from OpenCV and `new`).
        The frame joins the pending queue and its id is returned as `int32_t`. */
    method QueueNextFrame(frame: nat, length: nat, w: int32, h: int32, p: nat, resized: seq<bv8>)
      returns (id: int32, wrapper: FrameWrapper?)
      requires Valid()
      requires p != 0 && |resized| == width * height * 4
      modifies this
      ensures Valid()
      ensures !(old(initialized) && old(recording)) ==> id == -1 && wrapper == null && unchanged(this)
      ensures old(initialized) && old(recording) ==>
        && wrapper != null && fresh(wrapper) && wrapper.Valid()
        && wrapper.number == old(nextFrameId) == IdOf(old(accepted))
        && id == ToInt32(wrapper.number)
        && accepted == old(accepted) + 1
        && pendingFrames == old(pendingFrames) + [wrapper]
        && wrapper.electronFrame == frame && wrapper.electronLength == length
        && wrapper.electronWidth == ToUint32(w) && wrapper.electronHeight == ToUint32(h)
        && (wrapper.nativeFrame != 0 <==> w != ToInt32(width) || h != ToInt32(height))
        && (wrapper.nativeFrame != 0 ==>
              && wrapper.nativeFrame == p && wrapper.nativeBytes == resized
              && wrapper.nativeLength == width * height * 4
              && wrapper.nativeWidth == width && wrapper.nativeHeight == height)
        && (wrapper.nativeFrame == 0 ==> wrapper.nativeLength == 0 && wrapper.nativeBytes == [])
      ensures initialized == old(initialized) && recording == old(recording)
      ensures playing == old(playing) && calibrating == old(calibrating)
      ensures width == old(width) && height == old(height)
      ensures recordThread == old(recordThread) && playbackThread == old(playbackThread)
      ensures calibrationThread == old(calibrationThread) && previewReceiver == old(previewReceiver)
      ensures completedFrames == old(completedFrames) && pendingPreviews == old(pendingPreviews)
    {
      if !initialized || !recording {
        return -1, null;
      }
      wrapper := NewCapturedFrame(nextFrameId, frame, length, w, h, p, resized, width, height);
      accepted := accepted + 1;
      nextFrameId := ToUint32(nextFrameId + 1);
      ModSucc(accepted - 1);
      pendingFrames := pendingFrames + [wrapper];
      id := ToInt32(wrapper.number);
    }

    /** `checkCompletedFrames`: drain the completed queue and return the ids
        of its frames in dequeue order. */
    method CheckCompletedFrames() returns (ids: seq<int32>)
      requires Valid()
      modifies this
      ensures Valid()
      ensures ids == Numbers(old(completedFrames)) && completedFrames == []
      ensures initialized == old(initialized) && recording == old(recording)
      ensures playing == old(playing) && calibrating == old(calibrating)
      ensures nextFrameId == old(nextFrameId) && accepted == old(accepted)
      ensures width == old(width) && height == old(height)
      ensures recordThread == old(recordThread) && playbackThread == old(playbackThread)
      ensures calibrationThread == old(calibrationThread) && previewReceiver == old(previewReceiver)
      ensures pendingFrames == old(pendingFrames) && pendingPreviews == old(pendingPreviews)
    {
      ids := DrainNumbers(completedFrames);
      completedFrames := [];
    }

    /** `closeVideoOutput`: nothing while not recording; otherwise drop the
        record stage and clear the flag. */
    method CloseVideoOutput()
      requires Valid()
      modifies this
      ensures Valid()
      ensures !old(recording) ==> unchanged(this)
      ensures !recording && recordThread == None
      ensures initialized == old(initialized) && playing == old(playing) && calibrating == old(calibrating)
      ensures nextFrameId == old(nextFrameId) && accepted == old(accepted)
      ensures width == old(width) && height == old(height)
      ensures playbackThread == old(playbackThread) && calibrationThread == old(calibrationThread)
      ensures previewReceiver == old(previewReceiver)
      ensures pendingFrames == old(pendingFrames) && completedFrames == old(completedFrames)
      ensures pendingPreviews == old(pendingPreviews)
    {
      if !recording {
        return;
      }
      if recordThread.Some? {
        recordThread := None;
      }
      recording := false;
    }

    /** `beginVideoPlayback`: the same two guards as recording; otherwise start
        the playback stage and set the playing flag. */
    method BeginVideoPlayback(x: int, y: int, videos: seq<string>, scaleToFit: bool) returns (err: string)
      requires Valid()
      modifies this
      ensures Valid()
      ensures !old(initialized) ==> err == NotInitialized && unchanged(this)
      ensures old(initialized) && old(playing) ==> err == PlaybackInProgress && unchanged(this)
      ensures old(initialized) && !old(playing) ==>
        err == "" && playing && playbackThread == Some(PlaybackStage(x, y, videos, scaleToFit, ""))
      ensures initialized == old(initialized) && recording == old(recording) && calibrating == old(calibrating)
      ensures nextFrameId == old(nextFrameId) && accepted == old(accepted)
      ensures width == old(width) && height == old(height)
      ensures recordThread == old(recordThread) && calibrationThread == old(calibrationThread)
      ensures previewReceiver == old(previewReceiver)
      ensures pendingFrames == old(pendingFrames) && completedFrames == old(completedFrames)
      ensures pendingPreviews == old(pendingPreviews)
    {
      if !initialized {
        return NotInitialized;
      }
      if playing {
        return PlaybackInProgress;
      }
      playbackThread := Some(PlaybackStage(x, y, videos, scaleToFit, ""));
      playing := true;
      err := "";
    }

    /** `endVideoPlayback`: nothing while not playing; otherwise drop the
        playback stage and clear the flag. Always returns "". */
    method EndVideoPlayback() returns (err: string)
      requires Valid()
      modifies this
      ensures Valid()
      ensures err == ""
      ensures !old(playing) ==> unchanged(this)
      ensures !playing && playbackThread == None
      ensures initialized == old(initialized) && recording == old(recording) && calibrating == old(calibrating)
      ensures nextFrameId == old(nextFrameId) && accepted == old(accepted)
      ensures width == old(width) && height == old(height)
      ensures recordThread == old(recordThread) && calibrationThread == old(calibrationThread)
      ensures previewReceiver == old(previewReceiver)
      ensures pendingFrames == old(pendingFrames) && completedFrames == old(completedFrames)
      ensures pendingPreviews == old(pendingPreviews)
    {
      if !playing {
        return "";
      }
      if playbackThread.Some? {
        playbackThread := None;
      }
      playing := false;
      err := "";
    }

    /** `createPreviewChannel`: refused when neither the record nor the
        playback stage exists; otherwise generate a unique pipe name (`name`,
        None when the platform fails) and give it to every stage that exists. */
    method CreatePreviewChannel(name: Option<string>) returns (err: string, channelName: string)
      requires Valid()
      modifies this
      ensures Valid()
      ensures old(recordThread).None? && old(playbackThread).None? ==>
        err == NoStageForPreview && unchanged(this)
      ensures (old(recordThread).Some? || old(playbackThread).Some?) && name.None? ==>
        err == PipeNameFailed && unchanged(this)
      ensures (old(recordThread).Some? || old(playbackThread).Some?) && name.Some? ==>
        && err == "" && channelName == name.value
        && recordThread == (if old(recordThread).Some? then Some(old(recordThread).value.(channel := name.value)) else None)
        && playbackThread == (if old(playbackThread).Some? then Some(old(playbackThread).value.(channel := name.value)) else None)
      ensures initialized == old(initialized) && recording == old(recording)
      ensures playing == old(playing) && calibrating == old(calibrating)
      ensures nextFrameId == old(nextFrameId) && accepted == old(accepted)
      ensures width == old(width) && height == old(height)
      ensures calibrationThread == old(calibrationThread) && previewReceiver == old(previewReceiver)
      ensures pendingFrames == old(pendingFrames) && completedFrames == old(completedFrames)
      ensures pendingPreviews == old(pendingPreviews)
    {
      channelName := "";
      if recordThread.None? && playbackThread.None? {
        return NoStageForPreview, channelName;
      }
      if name.None? {
        return PipeNameFailed, channelName;
      }
      channelName := name.value;
      if recordThread.Some? {
        recordThread := Some(recordThread.value.(channel := channelName));
      }
      if playbackThread.Some? {
        playbackThread := Some(playbackThread.value.(channel := channelName));
      }
      err := "";
    }

    /** `openPreviewChannel`: start a preview receiver on `name`, replacing any
        earlier one. Always returns "". */
    method OpenPreviewChannel(name: string) returns (err: string)
      requires Valid()
      modifies this
      ensures Valid()
      ensures err == "" && previewReceiver == Some(name)
      ensures initialized == old(initialized) && recording == old(recording)
      ensures playing == old(playing) && calibrating == old(calibrating)
      ensures nextFrameId == old(nextFrameId) && accepted == old(accepted)
      ensures width == old(width) && height == old(height)
      ensures recordThread == old(recordThread) && playbackThread == old(playbackThread)
      ensures calibrationThread == old(calibrationThread)
      ensures pendingFrames == old(pendingFrames) && completedFrames == old(completedFrames)
      ensures pendingPreviews == old(pendingPreviews)
    {
      previewReceiver := Some(name);
      err := "";
    }

    /** `closePreviewChannel`: drop the preview receiver if there is one. */
    method ClosePreviewChannel()
      requires Valid()
      modifies this
      ensures Valid()
      ensures previewReceiver == None
      ensures old(previewReceiver).None? ==> unchanged(this)
      ensures initialized == old(initialized) && recording == old(recording)
      ensures playing == old(playing) && calibrating == old(calibrating)
      ensures nextFrameId == old(nextFrameId) && accepted == old(accepted)
      ensures width == old(width) && height == old(height)
      ensures recordThread == old(recordThread) && playbackThread == old(playbackThread)
      ensures calibrationThread == old(calibrationThread)
      ensures pendingFrames == old(pendingFrames) && completedFrames == old(completedFrames)
      ensures pendingPreviews == old(pendingPreviews)
    {
      if previewReceiver.Some? {
        previewReceiver := None;
      }
    }

    /** `getNextFrame`, its queue handling: false on an empty preview queue;
        otherwise take every queued image, free all but the newest in queue
        order, show the newest, then free it too. The returned `freed` lists
        every image freed, in order. */
    method GetNextFrame() returns (ok: bool, shown: Option<nat>, freed: seq<nat>)
      requires Valid()
      modifies this
      ensures Valid()
      ensures ok <==> old(pendingPreviews) != []
      ensures !ok ==> shown == None && freed == [] && unchanged(this)
      ensures ok ==> shown == Some(Last(old(pendingPreviews)))
      ensures freed == old(pendingPreviews)
      ensures pendingPreviews == []
      ensures initialized == old(initialized) && recording == old(recording)
      ensures playing == old(playing) && calibrating == old(calibrating)
      ensures nextFrameId == old(nextFrameId) && accepted == old(accepted)
      ensures width == old(width) && height == old(height)
      ensures recordThread == old(recordThread) && playbackThread == old(playbackThread)
      ensures calibrationThread == old(calibrationThread) && previewReceiver == old(previewReceiver)
      ensures pendingFrames == old(pendingFrames) && completedFrames == old(completedFrames)
    {
      var allFrames := pendingPreviews;
      if |allFrames| == 0 {
        return false, None, [];
      }
      pendingPreviews := [];
      var previewFrame := allFrames[|allFrames| - 1];
      freed := [];
      var discardCount: nat := 0;
      var i := 0;
      while i < |allFrames| - 1
        invariant 0 <= i <= |allFrames| - 1
        invariant freed == allFrames[..i] && discardCount == i
      {
        freed := freed + [allFrames[i]];
        discardCount := discardCount + 1;
        i := i + 1;
      }
      freed := freed + [previewFrame];
      assert freed == allFrames;
      ok, shown := true, Some(previewFrame);
    }

    /** `beginCalibration`: the same two guards; otherwise start the
        calibration stage and set the calibrating flag. */
    method BeginCalibration(x: int, y: int) returns (err: string)
      requires Valid()
      modifies this
      ensures Valid()
      ensures !old(initialized) ==> err == NotInitialized && unchanged(this)
      ensures old(initialized) && old(calibrating) ==> err == CalibrationInProgress && unchanged(this)
      ensures old(initialized) && !old(calibrating) ==>
        err == "" && calibrating && calibrationThread == Some(CalibrationStage(x, y))
      ensures initialized == old(initialized) && recording == old(recording) && playing == old(playing)
      ensures nextFrameId == old(nextFrameId) && accepted == old(accepted)
      ensures width == old(width) && height == old(height)
      ensures recordThread == old(recordThread) && playbackThread == old(playbackThread)
      ensures previewReceiver == old(previewReceiver)
      ensures pendingFrames == old(pendingFrames) && completedFrames == old(completedFrames)
      ensures pendingPreviews == old(pendingPreviews)
    {
      if !initialized {
        return NotInitialized;
      }
      if calibrating {
        return CalibrationInProgress;
      }
      calibrationThread := Some(CalibrationStage(x, y));
      calibrating := true;
      err := "";
    }

    /** `endCalibration`: nothing while not calibrating; otherwise drop the
        calibration stage and clear the flag. */
    method EndCalibration()
      requires Valid()
      modifies this
      ensures Valid()
      ensures !old(calibrating) ==> unchanged(this)
      ensures !calibrating && calibrationThread == None
      ensures initialized == old(initialized) && recording == old(recording) && playing == old(playing)
      ensures nextFrameId == old(nextFrameId) && accepted == old(accepted)
      ensures width == old(width) && height == old(height)
      ensures recordThread == old(recordThread) && playbackThread == old(playbackThread)
      ensures previewReceiver == old(previewReceiver)
      ensures pendingFrames == old(pendingFrames) && completedFrames == old(completedFrames)
      ensures pendingPreviews == old(pendingPreviews)
    {
      if !calibrating {
        return;
      }
      if calibrationThread.Some? {
        calibrationThread := None;
      }
      calibrating := false;
    }
  }

  function Last<T>(s: seq<T>): T
    requires s != []
  {
    s[|s| - 1]
  }

  /** The ids of a run of frames, as the `int32_t` values reported to the caller. */
  ghost function Numbers(frames: seq<FrameWrapper>): seq<int32>
    reads set f | f in frames
  {
    if frames == [] then [] else Numbers(frames[..|frames| - 1]) + [ToInt32(frames[|frames| - 1].number)]
  }

  /** The dequeue loop of `checkCompletedFrames` on a copy of the queue: pop
      the front frame and record its id until the queue is empty. */
  method DrainNumbers(queue0: seq<FrameWrapper>) returns (ids: seq<int32>)
    ensures ids == Numbers(queue0)
  {
    ids := [];
    var queue := queue0;
    ghost var drained: seq<FrameWrapper> := [];
    while queue != []
      invariant drained + queue == queue0
      invariant ids == Numbers(drained)
      decreases |queue|
    {
      var w := queue[0];
      NumbersAppend(drained, w);
      ids := ids + [ToInt32(w.number)];
      drained := drained + [w];
      queue := queue[1..];
    }
    assert drained == queue0;
  }

  lemma {:induction false} NumbersAppend(frames: seq<FrameWrapper>, f: FrameWrapper)
    ensures Numbers(frames + [f]) == Numbers(frames) + [ToInt32(f.number)]
  {
    assert (frames + [f])[..|frames|] == frames;
  }

  lemma {:induction false} ModSucc(k: nat)
    ensures IdOf(k + 1) == ToUint32(IdOf(k) + 1)
  {
  }

  /** The frame accepted when the counter holds 0xFFFFFFFF (after 2^32 - 1
      accepted frames) is reported as -1, the value that also means "refused". */
  lemma {:induction false} LastIdLooksRefused()
    ensures ToInt32(IdOf(TWO_32 - 1)) == -1
  {
  }
}
