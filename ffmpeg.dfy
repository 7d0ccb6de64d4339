/** The ffmpeg wrappers: the encoders fed raw BGRA frames on stdin
    (`FfmpegRecordProcess`, and `FfmpegProcess` with a chosen encoder) and the
    decoder that writes raw BGRA frames to stdout (`FfmpegPlaybackProcess`). */
module Ffmpeg {
  import opened Text
  import opened Ints
  import opened ChildProcess
  import opened PipeReaderStage

  /** The "<W>x<H>" value of `-video_size`. */
  function VideoSize(width: uint32, height: uint32): (s: string)
    ensures 'x' in s
  {
    NatToString(width) + "x" + NatToString(height)
  }

  /** ffmpeg reads the size back: the number before the 'x' is the width and
      the number after it is the height. */
  lemma {:induction false} VideoSizeRoundTrip(width: uint32, height: uint32)
    ensures Atoi(VideoSize(width, height)) == width
    ensures Atoi(VideoSize(width, height)[|NatToString(width)| + 1..]) == height
  {
    var w := NatToString(width);
    var h := NatToString(height);
    assert VideoSize(width, height) == w + ("x" + h);
    AtoiOfNatToString(width, "x" + h);
    assert VideoSize(width, height)[|w| + 1..] == h + [];
    AtoiOfNatToString(height, []);
  }

  /** The input options shared by both encoders: raw BGRA frames of the given
      size and rate, read from stdin. */
  function InputArguments(width: uint32, height: uint32, fps: uint32): (args: seq<string>)
    ensures |args| == 10
    ensures OptionAt(args, 0, "-f", "rawvideo")
    ensures OptionAt(args, 2, "-pix_fmt", "bgra")
    ensures OptionAt(args, 4, "-video_size", VideoSize(width, height))
    ensures OptionAt(args, 6, "-framerate", NatToString(fps))
    ensures OptionAt(args, 8, "-i", "pipe:0")
  {
    var size, rate := VideoSize(width, height), NatToString(fps);
    ["-f", "rawvideo", "-pix_fmt", "bgra", "-video_size", size, "-framerate", rate, "-i", "pipe:0"]
  }

  /** The recording command line: the input options, then libx264 in the high
      profile at constant rate factor 10 to yuv420p, overwriting `outputPath`. */
  function RecordArguments(width: uint32, height: uint32, fps: uint32, outputPath: string): (args: seq<string>)
    ensures |args| == 20 && args[..10] == InputArguments(width, height, fps)
    ensures OptionAt(args, 10, "-c:v", "libx264")
    ensures OptionAt(args, 12, "-profile:v", "high")
    ensures OptionAt(args, 14, "-crf", "10")
    ensures OptionAt(args, 16, "-pix_fmt", "yuv420p")
    ensures args[18] == "-y" && args[19] == outputPath
  {
    InputArguments(width, height, fps)
      + ["-c:v", "libx264", "-profile:v", "high", "-crf", "10", "-pix_fmt", "yuv420p", "-y", outputPath]
  }

  /** The general encoding command line: the input options, then the given
      encoder in the high profile to yuv420p, overwriting `outputPath`, with no
      rate factor. */
  function EncodeArguments(width: uint32, height: uint32, fps: uint32, encoder: string, outputPath: string)
    : (args: seq<string>)
    ensures |args| == 18 && args[..10] == InputArguments(width, height, fps)
    ensures OptionAt(args, 10, "-c:v", encoder)
    ensures OptionAt(args, 12, "-profile:v", "high")
    ensures OptionAt(args, 14, "-pix_fmt", "yuv420p")
    ensures args[16] == "-y" && args[17] == outputPath
  {
    InputArguments(width, height, fps)
      + ["-c:v", encoder, "-profile:v", "high", "-pix_fmt", "yuv420p", "-y", outputPath]
  }

  /** With libx264 the two encoder command lines differ only by the CRF pair. */
  lemma {:induction false} RecordIsEncodeWithCrf(width: uint32, height: uint32, fps: uint32, outputPath: string)
    ensures var e := EncodeArguments(width, height, fps, "libx264", outputPath);
      RecordArguments(width, height, fps, outputPath) == e[..14] + ["-crf", "10"] + e[14..]
  {
  }

  /** The playback command line: decode `videoPath` to raw BGRA frames on stdout. */
  function PlaybackArguments(videoPath: string): (args: seq<string>)
    ensures |args| == 9 && args[8] == "pipe:1"
    ensures OptionAt(args, 0, "-i", videoPath)
    ensures OptionAt(args, 2, "-f", "image2pipe")
    ensures OptionAt(args, 4, "-pix_fmt", "bgra")
    ensures OptionAt(args, 6, "-vcodec", "rawvideo")
  {
    ["-i", videoPath, "-f", "image2pipe", "-pix_fmt", "bgra", "-vcodec", "rawvideo", "pipe:1"]
  }

  /** An encoder process (`FfmpegRecordProcess` or `FfmpegProcess`; the two
      differ only in their argument lists). */
  class EncoderProcess {
    const executable: string
    const arguments: seq<string>
    const handles: ProcessHandles
    /** Whether both drainer threads were stopped after the monitor loop. */
    var readersStopped: bool

    constructor (exec: string, args: seq<string>)
      ensures executable == exec && arguments == args && !readersStopped
      ensures fresh(handles) && handles.Valid()
      ensures handles.pid == 0 && handles.stdin == 0 && handles.stdout == 0 && handles.stderr == 0
      ensures !handles.processStarted && handles.closed == [] && handles.terminations == 0
    {
      executable := exec;
      arguments := args;
      handles := new ProcessHandles();
      readersStopped := false;
    }

    /** `run`: spawn the encoder and its two drainers (returning 1 if either
        fails), log its output until it ends, a drainer dies or a stop is
        requested (terminating it), then stop the drainers and close the
        handles. */
    method Run(spawn: Spawn, readersSpawned: bool, ticks: seq<MonitorTick>)
      returns (status: nat, exit: MonitorExit, passes: nat)
      requires handles.Valid() && handles.Spawnable(spawn)
      modifies this, handles
      ensures handles.Valid()
      ensures spawn.SpawnFailed? ==> status == 1 && unchanged(this) && unchanged(handles)
      ensures spawn.Spawned? && !readersSpawned ==>
        && status == 1 && handles.processStarted == old(handles.processStarted)
        && handles.pid == spawn.pid && handles.stdin == spawn.stdin
        && handles.stdout == spawn.stdout && handles.stderr == spawn.stderr
        && handles.closed == old(handles.closed)
      ensures spawn.Spawned? && readersSpawned ==>
        && status == 0 && handles.processStarted && readersStopped
        && MonitorEnded(spawn.pid, ticks, exit, passes)
        && handles.terminations == old(handles.terminations) + (if exit == Stopped then 1 else 0)
        && handles.stdin == 0 && handles.stdout == 0 && handles.stderr == 0
        && handles.closed == old(handles.closed) + Closing(spawn.stdin, spawn.stdout, spawn.stderr)
    {
      exit, passes := ProcessEnded, 0;
      var started := handles.StartProcess(spawn);
      if !started || !readersSpawned {
        return 1, exit, passes;
      }
      handles.processStarted := true;
      var stdoutRaw, terminate;
      exit, passes, stdoutRaw, terminate := Monitor(handles.pid, ticks, false);
      if terminate {
        handles.TerminateProcess();
      }
      readersStopped := true;
      handles.CleanUpProcess();
      status := 0;
    }

    /** `writeStdin`: hand one frame's bytes to the encoder; the platform
        accepted `written` of them (-1 on failure). */
    function WriteStdin(length: uint32, written: int): (ok: bool)
      reads this, handles
      requires -1 <= written <= length
      ensures ok <==> handles.stdin != 0 && written == length
    {
      handles.WriteStdin(length, written)
    }
  }

  /** The decoder process (`FfmpegPlaybackProcess`). */
  class PlaybackProcess {
    const executable: string
    const arguments: seq<string>
    const handles: ProcessHandles
    var stdoutReader: PipeReader?
    var stderrReader: PipeReader?

    constructor (exec: string, videoPath: string)
      ensures executable == exec && arguments == PlaybackArguments(videoPath)
      ensures stdoutReader == null && stderrReader == null
      ensures fresh(handles) && handles.Valid()
      ensures handles.pid == 0 && handles.stdin == 0 && handles.stdout == 0 && handles.stderr == 0
      ensures !handles.processStarted && handles.closed == [] && handles.terminations == 0
    {
      executable := exec;
      arguments := PlaybackArguments(videoPath);
      handles := new ProcessHandles();
      stdoutReader, stderrReader := null, null;
    }

    /** `run`: spawn the decoder and its two drainers (returning 1 if either
        fails), log stderr until the decoder ends, a drainer dies or a stop is
        requested (terminating it). Unlike the encoders it neither stops the
        drainers nor closes the handles: the destructor does. */
    method Run(spawn: Spawn, readersSpawned: bool, ticks: seq<MonitorTick>)
      returns (status: nat, exit: MonitorExit, passes: nat)
      requires handles.Valid() && handles.Spawnable(spawn)
      modifies this, handles
      ensures handles.Valid()
      ensures spawn.SpawnFailed? ==> status == 1 && unchanged(this) && unchanged(handles)
      ensures spawn.Spawned? ==>
        && handles.pid == spawn.pid && handles.stdin == spawn.stdin
        && handles.stdout == spawn.stdout && handles.stderr == spawn.stderr
        && handles.closed == old(handles.closed)
        && stdoutReader != null && fresh(stdoutReader) && stdoutReader.file == spawn.stdout
        && stdoutReader.Valid() && stdoutReader.data == [] && !stdoutReader.stopped
        && stderrReader != null && fresh(stderrReader) && stderrReader.file == spawn.stderr
        && !stderrReader.stopped
      ensures spawn.Spawned? && !readersSpawned ==>
        status == 1 && handles.processStarted == old(handles.processStarted)
      ensures spawn.Spawned? && readersSpawned ==>
        && status == 0 && handles.processStarted
        && MonitorEnded(spawn.pid, ticks, exit, passes)
        && handles.terminations == old(handles.terminations) + (if exit == Stopped then 1 else 0)
    {
      exit, passes := ProcessEnded, 0;
      var started := handles.StartProcess(spawn);
      if !started {
        return 1, exit, passes;
      }
      stdoutReader := new PipeReader(handles.stdout);
      stderrReader := new PipeReader(handles.stderr);
      if !readersSpawned {
        return 1, exit, passes;
      }
      handles.processStarted := true;
      var stdoutRaw, terminate;
      exit, passes, stdoutRaw, terminate := Monitor(handles.pid, ticks, false);
      if terminate {
        handles.TerminateProcess();
      }
      status := 0;
    }

    /** `readStdout`: drain the stdout reader, or "" when there is none. */
    method ReadStdout() returns (data: seq<bv8>)
      requires stdoutReader != null ==> stdoutReader.Valid()
      modifies stdoutReader
      ensures stdoutReader == null ==> data == []
      ensures stdoutReader != null ==>
        && data == old(stdoutReader.data) && stdoutReader.data == []
        && stdoutReader.Valid() && stdoutReader.taken == old(stdoutReader.taken) + data
        && stdoutReader.received == old(stdoutReader.received)
    {
      if stdoutReader == null {
        data := [];
      } else {
        data := stdoutReader.GetData();
      }
    }

    /** The destructor: stop whichever drainers exist, then close every
        handle still held. */
    method Destroy()
      requires handles.Valid()
      modifies stdoutReader, stderrReader, handles
      ensures handles.Valid()
      ensures stdoutReader != null ==> stdoutReader.stopped
      ensures stderrReader != null ==> stderrReader.stopped
      ensures handles.stdin == 0 && handles.stdout == 0 && handles.stderr == 0
      ensures handles.closed == old(handles.closed)
        + Closing(old(handles.stdin), old(handles.stdout), old(handles.stderr))
      ensures handles.pid == old(handles.pid) && handles.terminations == old(handles.terminations)
    {
      if stdoutReader != null {
        stdoutReader.Terminate();
      }
      if stderrReader != null {
        stderrReader.Terminate();
      }
      handles.CleanUpProcess();
    }
  }
}
