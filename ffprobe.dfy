/** The probe wrapper (`FfprobeProcess`): runs ffprobe on a video file and
    reads the first video stream's width, height, frame rate and frame count
    from its JSON output. */
module Ffprobe {
  import opened Wrappers
  import opened Text
  import opened Ints
  import opened ChildProcess

  /** The ffprobe command line: quiet, JSON output, all streams of `videoPath`. */
  function Arguments(videoPath: string): (args: seq<string>)
    ensures |args| == 6 && args[5] == videoPath
    ensures OptionAt(args, 0, "-v", "quiet")
    ensures OptionAt(args, 2, "-print_format", "json")
    ensures args[4] == "-show_streams"
  {
    ["-v", "quiet", "-print_format", "json", "-show_streams", videoPath]
  }

  /** The fields of one entry of the JSON `streams` array that the probe reads,
      as the JSON parser delivers them. */
  datatype Stream = Stream(
    codecType: string,
    width: uint32,
    height: uint32,
    rFrameRate: string,
    nbFrames: string)

  /** The probe's four result fields. */
  datatype VideoFacts = VideoFacts(width: uint32, height: uint32, fps: uint32, frameCount: uint32)

  /** Position of the first `c` in `s` (`string::find`). */
  function FindChar(s: string, c: char): (r: Option<nat>)
    ensures r.None? ==> c !in s
    ensures r.Some? ==> r.value < |s| && s[r.value] == c && c !in s[..r.value]
  {
    if s == [] then None
    else if s[0] == c then Some(0)
    else match FindChar(s[1..], c)
      case None => None
      case Some(i) => assert s[..i + 1] == [s[0]] + s[1..][..i]; Some(i + 1)
  }

  /** The frame rate read from an `r_frame_rate` such as "30/1": the `atoi` of
      the text before the first '/', stored as `uint32_t`; without a '/' the
      previous value is kept. */
  function ParseFps(rate: string, previous: uint32): (fps: uint32)
    ensures '/' !in rate ==> fps == previous
  {
    match FindChar(rate, '/')
    case None => previous
    case Some(i) => ToUint32(Atoi(rate[..i]))
  }

  /** `find` skips a prefix free of the character. */
  lemma {:induction false} FindCharAfter(prefix: string, c: char, rest: string)
    requires c !in prefix && rest != [] && rest[0] == c
    ensures FindChar(prefix + rest, c) == Some(|prefix|)
  {
    if prefix == [] {
      assert prefix + rest == rest;
    } else {
      assert (prefix + rest)[1..] == prefix[1..] + rest;
      FindCharAfter(prefix[1..], c, rest);
    }
  }

  /** A rate written as "<n>/<d>" yields n. */
  lemma {:induction false} ParseFpsOfRatio(n: uint32, denominator: string, previous: uint32)
    ensures ParseFps(NatToString(n) + "/" + denominator, previous) == n
  {
    var digits := NatToString(n);
    var s := digits + "/" + denominator;
    assert '/' !in digits by {
      forall i | 0 <= i < |digits| ensures digits[i] != '/' {
        assert IsDigit(digits[i]);
      }
    }
    assert s == digits + ("/" + denominator);
    FindCharAfter(digits, '/', "/" + denominator);
    assert s[..|digits|] == digits;
    AtoiOfNatToString(n, []);
    assert digits + [] == digits;
  }

  /** Index of the first stream whose `codec_type` is "video". */
  function FirstVideoStream(streams: seq<Stream>): (r: Option<nat>)
    ensures r.None? ==> forall k | 0 <= k < |streams| :: streams[k].codecType != "video"
    ensures r.Some? ==> r.value < |streams| && streams[r.value].codecType == "video"
    ensures r.Some? ==> forall k | 0 <= k < r.value :: streams[k].codecType != "video"
  {
    if streams == [] then None
    else if streams[0].codecType == "video" then Some(0)
    else match FirstVideoStream(streams[1..])
      case None => None
      case Some(i) => Some(i + 1)
  }

  /** The probe's result fields after reading the streams: all four come from
      the first video stream (fps only when its rate has a '/'), and nothing
      changes when there is no video stream. */
  function ReadStreams(streams: seq<Stream>, previous: VideoFacts): (facts: VideoFacts)
    ensures FirstVideoStream(streams).None? ==> facts == previous
  {
    match FirstVideoStream(streams)
    case None => previous
    case Some(i) =>
      var s := streams[i];
      VideoFacts(s.width, s.height, ParseFps(s.rFrameRate, previous.fps), ToUint32(Atoi(s.nbFrames)))
  }

  /** Streams after the first video stream are ignored. */
  lemma {:induction false} ReadStreamsIgnoresLater(streams: seq<Stream>, later: seq<Stream>, previous: VideoFacts)
    requires FirstVideoStream(streams).Some?
    ensures ReadStreams(streams + later, previous) == ReadStreams(streams, previous)
  {
    var i := FirstVideoStream(streams).value;
    FirstVideoStreamOfPrefix(streams, later);
    assert (streams + later)[i] == streams[i];
  }

  lemma {:induction false} FirstVideoStreamOfPrefix(streams: seq<Stream>, later: seq<Stream>)
    requires FirstVideoStream(streams).Some?
    ensures FirstVideoStream(streams + later) == FirstVideoStream(streams)
  {
    if streams[0].codecType != "video" {
      assert (streams + later)[1..] == streams[1..] + later;
      FirstVideoStreamOfPrefix(streams[1..], later);
    }
  }

  /** Audio, subtitle and data streams before the video stream change nothing. */
  lemma {:induction false} ReadStreamsSkipsOthers(others: seq<Stream>, streams: seq<Stream>, previous: VideoFacts)
    requires forall k | 0 <= k < |others| :: others[k].codecType != "video"
    ensures ReadStreams(others + streams, previous) == ReadStreams(streams, previous)
  {
    FirstVideoStreamAfterOthers(others, streams);
    match FirstVideoStream(streams)
    case None =>
    case Some(i) => assert (others + streams)[|others| + i] == streams[i];
  }

  lemma {:induction false} FirstVideoStreamAfterOthers(others: seq<Stream>, streams: seq<Stream>)
    requires forall k | 0 <= k < |others| :: others[k].codecType != "video"
    ensures FirstVideoStream(others + streams) ==
      match FirstVideoStream(streams)
      case None => None
      case Some(i) => Some(|others| + i)
  {
    if others != [] {
      assert (others + streams)[1..] == others[1..] + streams;
      FirstVideoStreamAfterOthers(others[1..], streams);
    } else {
      assert others + streams == streams;
    }
  }

  /** What ffprobe prints for a video stream of `fps` frames per second (as
      "<fps>/<denominator>") and `count` frames is read back as exactly those values. */
  lemma {:induction false} ReadStreamsRoundTrip(w: uint32, h: uint32, fps: uint32, den: string, count: uint32, previous: VideoFacts)
    ensures ReadStreams([Stream("video", w, h, NatToString(fps) + "/" + den, NatToString(count))], previous)
      == VideoFacts(w, h, fps, count)
  {
    var rate := NatToString(fps) + "/" + den;
    var frames := NatToString(count);
    var st := Stream("video", w, h, rate, frames);
    assert FirstVideoStream([st]) == Some(0);
    ParseFpsOfRatio(fps, den, previous.fps);
    assert Atoi(frames) == count by {
      AtoiOfNatToString(count, []);
      assert frames + [] == frames;
    }
  }

  class FfprobeProcess {
    const executable: string
    const arguments: seq<string>
    const handles: ProcessHandles
    var facts: VideoFacts
    /** Whether both drainer threads were stopped after the monitor loop. */
    var readersStopped: bool

    constructor (exec: string, videoPath: string)
      ensures executable == exec && arguments == Arguments(videoPath)
      ensures facts == VideoFacts(0, 0, 0, 0) && !readersStopped
      ensures fresh(handles) && handles.Valid()
      ensures handles.pid == 0 && handles.stdin == 0 && handles.stdout == 0 && handles.stderr == 0
      ensures !handles.processStarted && handles.closed == [] && handles.terminations == 0
    {
      executable := exec;
      arguments := Arguments(videoPath);
      handles := new ProcessHandles();
      facts := VideoFacts(0, 0, 0, 0);
      readersStopped := false;
    }

    /** `run`: spawn ffprobe and its two drainers (returning 1 if either
        fails), collect stdout until the process ends, a drainer dies or a stop
        is requested (terminating the process), stop the drainers, close the
        handles and read the parsed streams. `parse` stands for the JSON parser. */
    method Run(spawn: Spawn, readersSpawned: bool, ticks: seq<MonitorTick>, parse: seq<bv8> -> seq<Stream>)
      returns (status: nat, exit: MonitorExit, passes: nat)
      requires handles.Valid() && handles.Spawnable(spawn)
      modifies this, handles
      ensures handles.Valid()
      ensures spawn.SpawnFailed? ==> status == 1 && unchanged(this) && unchanged(handles)
      ensures spawn.Spawned? && !readersSpawned ==>
        && status == 1 && facts == old(facts) && handles.processStarted == old(handles.processStarted)
        && handles.pid == spawn.pid && handles.stdin == spawn.stdin
        && handles.stdout == spawn.stdout && handles.stderr == spawn.stderr
        && handles.closed == old(handles.closed)
      ensures spawn.Spawned? && readersSpawned ==>
        && status == 0 && handles.processStarted && readersStopped
        && MonitorEnded(spawn.pid, ticks, exit, passes)
        && handles.terminations == old(handles.terminations) + (if exit == Stopped then 1 else 0)
        && handles.stdin == 0 && handles.stdout == 0 && handles.stderr == 0
        && handles.closed == old(handles.closed) + Closing(spawn.stdin, spawn.stdout, spawn.stderr)
        && facts == ReadStreams(parse(StdoutOf(ticks[..passes])), old(facts))
    {
      exit, passes := ProcessEnded, 0;
      var started := handles.StartProcess(spawn);
      if !started {
        return 1, exit, passes;
      }
      if !readersSpawned {
        return 1, exit, passes;
      }
      handles.processStarted := true;
      var stdoutRaw, terminate;
      exit, passes, stdoutRaw, terminate := Monitor(handles.pid, ticks, true);
      if terminate {
        handles.TerminateProcess();
      }
      readersStopped := true;
      handles.CleanUpProcess();
      facts := ReadStreams(parse(stdoutRaw), facts);
      status := 0;
    }
  }
}
