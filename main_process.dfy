/** The recording side of the Electron main process (`main.dev.ts`): stimulus
    generation from the compiled program, stimulus batches for the stimulus
    window, the capture of rendered frames (held back until the first
    stimulus frame is known, then handed to the native encoder up to the
    expected frame count), the timer that releases completed frames and ends
    the run, and the reset when a run stops. Windows, IPC transport, logging
    and the native calls themselves are not modelled: the native layer's
    frame ids are an oracle `idOf`, the k-th frame handed over getting
    `idOf(k)`. */
module MainProcess {
  import opened Seqs
  import opened Wrappers
  import opened Stimuli

  const IMAGE_TYPE: string := "IMAGE"
  const BATCH_SIZE: nat := 50
  const NO_PROGRAM: string := "Program not defined"
  const NULL_STIMULUS: string := "Program response did not contain a stimulus"
  const TIMER_RUNNING: string := "Frame clean time is already running"
  const NO_VIDEO_INFO: string := "Cannot get stimulus batch when video info is null"

  /** A captured frame as the stimulus window renders it. */
  datatype Image = Image(bitmap: seq<bv8>, width: nat, height: nat)

  /** The fields of `videoInfo` this process reads or updates. */
  datatype Video = Video(fps: real, limitSeconds: real, frameCount: real, frameNumber: int)

  // ---------------------------------------------------------------------------
  // Stimulus generation

  /** What the generation loop produced: the stimuli it queued, the summed
      lifespan, and whether it stopped on a null stimulus (an exception). */
  datatype Generated = Generated(taken: seq<Stimulus>, duration: real, failed: bool)

  /** The summed lifespan of `ss`. */
  function Lifespans(ss: seq<Stimulus>): real {
    if ss == [] then 0.0 else ss[0].lifespan + Lifespans(ss[1..])
  }

  /** The generation loop over the values the program yields before it is
      done (`None` for a null value), starting from the summed lifespan
      `duration`: each stimulus is queued; a null one throws; the loop stops
      after the stimulus that takes the summed lifespan to `limit` or beyond
      when `limited`. */
  function Generate(values: seq<Option<Stimulus>>, limited: bool, limit: real, duration: real): Generated
    decreases |values|
  {
    if values == [] then Generated([], duration, false)
    else if values[0].None? then Generated([], duration, true)
    else
      var s := values[0].value;
      var d := duration + s.lifespan;
      if limited && d >= limit then Generated([s], d, false)
      else
        var g := Generate(values[1..], limited, limit, d);
        Generated([s] + g.taken, g.duration, g.failed)
  }

  /** The queued stimuli are the program's values in order, up to where it
      stopped; it stops early only on a null value (which throws) or once the
      summed lifespan reaches the limit, and never before that: every shorter
      prefix stays below the limit. */
  lemma {:induction false} GenerateStops(values: seq<Option<Stimulus>>, limited: bool, limit: real, duration: real)
    ensures var g := Generate(values, limited, limit, duration);
      && |g.taken| <= |values|
      && (forall i | 0 <= i < |g.taken| :: values[i] == Some(g.taken[i]))
      && g.duration == duration + Lifespans(g.taken)
      && (g.failed ==> |g.taken| < |values| && values[|g.taken|].None?)
      && (!g.failed && |g.taken| < |values| ==> limited && g.duration >= limit)
      && (limited ==> forall k | 0 < k < |g.taken| :: duration + Lifespans(g.taken[..k]) < limit)
  {
    if values != [] && values[0].Some? {
      var s := values[0].value;
      var d := duration + s.lifespan;
      if !(limited && d >= limit) {
        GenerateStops(values[1..], limited, limit, d);
        var g' := Generate(values[1..], limited, limit, d);
        var g := Generate(values, limited, limit, duration);
        assert g.taken == [s] + g'.taken;
        forall k | 0 < k < |g.taken|
          ensures limited ==> duration + Lifespans(g.taken[..k]) < limit
        {
          assert g.taken[..k] == [s] + g'.taken[..k - 1];
          assert g.taken[..k][1..] == g'.taken[..k - 1];
          if k > 1 {
            assert limited ==> d + Lifespans(g'.taken[..k - 1]) < limit;
          }
        }
        assert ([s] + g'.taken)[1..] == g'.taken;
      }
    }
  }

  /** One pass of the generation loop, taking a non-null value that does not
      reach the limit. */
  lemma {:induction false} GenerateStep(values: seq<Option<Stimulus>>, i: nat, limited: bool, limit: real, duration: real)
    requires i < |values| && values[i].Some?
    requires !(limited && duration + values[i].value.lifespan >= limit)
    ensures var g := Generate(values[i + 1..], limited, limit, duration + values[i].value.lifespan);
      Generate(values[i..], limited, limit, duration) == Generated([values[i].value] + g.taken, g.duration, g.failed)
  {
    assert values[i..][1..] == values[i + 1..];
  }

  /** The `while (true)` loop of `generateStimuli`: the stimuli it takes
      from the program's values, their summed lifespan, and whether it met a
      null value. */
  method GenerateLoop(values: seq<Option<Stimulus>>, limited: bool, limit: real)
    returns (taken: seq<Stimulus>, durationSecs: real, failed: bool)
    ensures Generated(taken, durationSecs, failed) == Generate(values, limited, limit, 0.0)
  {
    durationSecs := 0.0;
    taken := [];
    var i := 0;
    while i < |values|
      invariant 0 <= i <= |values|
      invariant var g := Generate(values[i..], limited, limit, durationSecs);
        Generate(values, limited, limit, 0.0) == Generated(taken + g.taken, g.duration, g.failed)
    {
      if values[i].None? {
        return taken, durationSecs, true;
      }
      var stimulus := values[i].value;
      durationSecs := durationSecs + stimulus.lifespan;
      if limited && durationSecs >= limit {
        return taken + [stimulus], durationSecs, false;
      }
      GenerateStep(values, i, limited, limit, durationSecs - stimulus.lifespan);
      AppendAssoc(taken, [stimulus], Generate(values[i + 1..], limited, limit, durationSecs).taken);
      taken := taken + [stimulus];
      i := i + 1;
    }
    failed := false;
  }

  /** The image path an IMAGE stimulus adds to the image set (`None` for
      the `undefined` of a stimulus without one). */
  function ImagePath(s: Stimulus): Option<string> {
    if s.shape.ImageShape? then Some(s.shape.image) else None
  }

  /** The image paths of the IMAGE stimuli in `ss`. */
  function Images(ss: seq<Stimulus>): set<Option<string>> {
    set i | 0 <= i < |ss| && ss[i].stimulusType == IMAGE_TYPE :: ImagePath(ss[i])
  }

  /** The generation loop as run with `video` as the video info. */
  function Generation(video: Option<Video>, values: seq<Option<Stimulus>>): Generated {
    Generate(values, Limited(video), LimitOf(video), 0.0)
  }

  /** The video info once the expected frame count is set to `duration`
      seconds at its frame rate. */
  function WithFrameCount(video: Option<Video>, duration: real): Option<Video> {
    if video.None? then None else Some(video.value.(frameCount := FrameCount(duration, video.value.fps)))
  }

  /** The frames expected of `duration` seconds at `fps` frames per second. */
  function FrameCount(duration: real, fps: real): real {
    duration * fps
  }

  /** Whether the generation loop stops at `limitSeconds`: only with video
      info and a non-zero limit. */
  predicate Limited(video: Option<Video>) {
    video.Some? && video.value.limitSeconds != 0.0
  }

  function LimitOf(video: Option<Video>): real {
    if video.Some? then video.value.limitSeconds else 0.0
  }

  // ---------------------------------------------------------------------------
  // Frame capture

  /** The state the frame-capture path and the clean timer share: the video
      info, the first stimulus frame number (-1 while unknown), the frames
      held back until it is known, the frames the native layer is still
      working on by id, the frames handed to the native layer in order, and
      whether the clean timer runs. */
  datatype Recorder = Recorder(video: Option<Video>, firstFrameNumber: int, early: seq<Image>,
                               pending: map<int, Image>, queued: seq<Image>, timerRunning: bool)

  /** Hands `image` to the native layer and keeps it pending under the id
      the native layer assigns. */
  function Submit(r: Recorder, image: Image, idOf: nat -> int): (r': Recorder)
    ensures r'.queued == r.queued + [image] && |r'.queued| == |r.queued| + 1
  {
    r.(pending := r.pending[idOf(|r.queued|) := image], queued := r.queued + [image])
  }

  /** Hands each of `images` to the native layer, in order. */
  function SubmitAll(r: Recorder, images: seq<Image>, idOf: nat -> int): (r': Recorder)
    ensures r'.queued == r.queued + images
    ensures r' == r.(pending := r'.pending, queued := r'.queued)
    decreases |images|
  {
    if images == [] then r else SubmitAll(Submit(r, images[0], idOf), images[1..], idOf)
  }

  /** The held-back frames from index `first` onward. */
  function FromFirst(early: seq<Image>, first: nat): seq<Image> {
    if first <= |early| then early[first..] else []
  }

  /** `startFrameCleanTimer`: throws when the timer already runs. */
  function StartTimer(r: Recorder): (Recorder, Option<string>) {
    if r.timerRunning then (r, Some(TIMER_RUNNING)) else (r.(timerRunning := true), None)
  }

  /** `frameCaptured`: without video info the frame is ignored; while the
      first stimulus frame is unknown it is held back and counted; on the
      first capture after that, the held-back frames from the first
      stimulus frame onward are handed over and the clean timer starts;
      then the frame is handed over and counted unless the expected frame
      count is already reached. */
  function Captured(r: Recorder, image: Image, idOf: nat -> int): (Recorder, Option<string>)
    requires r.firstFrameNumber >= -1
  {
    if r.video.None? then (r, None)
    else
      var v := r.video.value;
      if r.firstFrameNumber == -1 then
        (r.(early := r.early + [image], video := Some(v.(frameNumber := v.frameNumber + 1))), None)
      else
        var (r1, err) :=
          if |r.early| > 0 then StartTimer(SubmitAll(r, FromFirst(r.early, r.firstFrameNumber), idOf).(early := []))
          else (r, None);
        if err.Some? then (r1, err)
        else if v.frameNumber as real >= v.frameCount + r.firstFrameNumber as real then (r1, None)
        else (Submit(r1, image, idOf).(video := Some(v.(frameNumber := v.frameNumber + 1))), None)
  }

  /** Every capture keeps what was handed to the native layer and only
      appends to it; a capture without video info changes nothing. */
  lemma {:induction false} CapturedExtends(r: Recorder, image: Image, idOf: nat -> int)
    requires r.firstFrameNumber >= -1
    ensures var (r', _) := Captured(r, image, idOf);
      && |r.queued| <= |r'.queued| && r'.queued[..|r.queued|] == r.queued
      && r'.firstFrameNumber == r.firstFrameNumber
      && (r.video.None? ==> r' == r)
      && (r.firstFrameNumber == -1 ==> r'.queued == r.queued)
  {
    var (r', _) := Captured(r, image, idOf);
    assert r'.queued[..|r.queued|] == r.queued;
  }

  /** Captures of `images`, one after the other, ignoring exceptions. */
  function CaptureAll(r: Recorder, images: seq<Image>, idOf: nat -> int): (r': Recorder)
    requires r.firstFrameNumber >= -1
    ensures r'.firstFrameNumber == r.firstFrameNumber
    decreases |images|
  {
    if images == [] then r
    else
      CapturedExtends(r, images[0], idOf);
      CaptureAll(Captured(r, images[0], idOf).0, images[1..], idOf)
  }

  /** A run with video info, `frameCount` frames expected, and the frame
      counter at zero: nothing held back, nothing pending, no timer. */
  function Fresh(frameCount: nat, fps: real, limitSeconds: real): Recorder {
    Recorder(Some(Video(fps, limitSeconds, frameCount as real, 0)), -1, [], map[], [], false)
  }

  /** Before the first stimulus frame is known, captures are held back and
      counted, and nothing reaches the native layer. */
  lemma {:induction false} HoldBack(r: Recorder, images: seq<Image>, idOf: nat -> int)
    requires r.video.Some? && r.firstFrameNumber == -1
    ensures var r' := CaptureAll(r, images, idOf);
      && r' == r.(early := r.early + images,
                  video := Some(r.video.value.(frameNumber := r.video.value.frameNumber + |images|)))
    decreases |images|
  {
    if images != [] {
      var r1 := Captured(r, images[0], idOf).0;
      HoldBack(r1, images[1..], idOf);
      assert r.early + images == r1.early + images[1..];
    }
  }

  /** After the hand-over, each capture is handed over and counted while the
      count is below the expected one, and dropped after. */
  lemma {:induction false} Record(r: Recorder, images: seq<Image>, idOf: nat -> int, frameCount: nat)
    requires r.video.Some? && r.firstFrameNumber >= 0 && r.early == []
    requires r.video.value.frameCount == frameCount as real
    ensures var v := r.video.value;
      var room := frameCount + r.firstFrameNumber - v.frameNumber;
      var n := if room <= 0 then 0 else if room < |images| then room else |images|;
      CaptureAll(r, images, idOf).queued == r.queued + images[..n]
    decreases |images|
  {
    if images != [] {
      var r1 := Captured(r, images[0], idOf).0;
      Record(r1, images[1..], idOf, frameCount);
      var v := r.video.value;
      var room := frameCount + r.firstFrameNumber - v.frameNumber;
      if room > 0 {
        assert images[..1] + images[1..][..(if room - 1 < |images| - 1 then room - 1 else |images| - 1)]
            == images[..(if room < |images| then room else |images|)];
      }
    }
  }

  /** The state right after the first capture once the first stimulus
      frame is known: the held-back frames from that frame onward handed
      over, none held back, the clean timer running. */
  function Flushed(r: Recorder, idOf: nat -> int): Recorder
    requires r.firstFrameNumber >= 0
  {
    SubmitAll(r, FromFirst(r.early, r.firstFrameNumber), idOf).(early := [], timerRunning := true)
  }

  /** Captures starting with the first one once the first stimulus frame is
      known go on as from the flushed state. */
  lemma {:induction false} CaptureAllFlushed(r: Recorder, images: seq<Image>, idOf: nat -> int)
    requires r.video.Some? && r.firstFrameNumber >= 0 && |r.early| > 0 && !r.timerRunning
    requires images != []
    ensures CaptureAll(r, images, idOf) == CaptureAll(Flushed(r, idOf), images, idOf)
  {
    var f := Flushed(r, idOf);
    assert f.video == r.video && f.firstFrameNumber == r.firstFrameNumber;
    assert Captured(r, images[0], idOf).0 == Captured(f, images[0], idOf).0;
  }

  /** A run: `held` captured before the first stimulus frame is known,
      then that frame reported as `first`, then `later` captured. */
  function Run(held: seq<Image>, later: seq<Image>, first: nat, frameCount: nat,
               fps: real, limitSeconds: real, idOf: nat -> int): Recorder
  {
    CaptureAll(Started(held, first, frameCount, fps, limitSeconds, idOf), later, idOf)
  }

  /** The state of a run once `first` is reported, after `held` were
      captured. */
  function Started(held: seq<Image>, first: nat, frameCount: nat, fps: real, limitSeconds: real,
                   idOf: nat -> int): Recorder
  {
    CaptureAll(Fresh(frameCount, fps, limitSeconds), held, idOf).(firstFrameNumber := first)
  }

  lemma {:induction false} StartedHolds(held: seq<Image>, first: nat, frameCount: nat, fps: real, limitSeconds: real,
                     idOf: nat -> int)
    ensures Started(held, first, frameCount, fps, limitSeconds, idOf)
         == Recorder(Some(Video(fps, limitSeconds, frameCount as real, |held|)), first, held, map[], [], false)
  {
    HoldBack(Fresh(frameCount, fps, limitSeconds), held, idOf);
  }

  /** The recorded video: in a run whose first stimulus frame `first` comes
      no later than the `held` frames captured before it is known, and no
      sooner than `frameCount` frames before them, the native layer gets
      exactly the `frameCount` captured frames from `first` onward, in order
      (all of them from `first` on when fewer are captured). */
  lemma {:induction false} RecordsFromFirstFrame(held: seq<Image>, later: seq<Image>, first: nat, frameCount: nat,
                              fps: real, limitSeconds: real, idOf: nat -> int)
    requires 0 < |held| && first <= |held| <= first + frameCount
    requires |later| > 0
    ensures var queued := Run(held, later, first, frameCount, fps, limitSeconds, idOf).queued;
      && (first + frameCount <= |held + later| ==> queued == (held + later)[first..first + frameCount])
      && (first + frameCount > |held + later| ==> queued == (held + later)[first..])
  {
    RunQueued(held, later, first, frameCount, fps, limitSeconds, idOf);
    SliceJoin(held, later, first, first + frameCount);
  }

  /** In such a run the held frames from `first` on are queued when `first`
      is reported, then the later ones while room remains. */
  lemma {:induction false} RunQueued(held: seq<Image>, later: seq<Image>, first: nat, frameCount: nat,
                                     fps: real, limitSeconds: real, idOf: nat -> int)
    requires 0 < |held| && first <= |held| <= first + frameCount
    requires |later| > 0
    ensures var m := first + frameCount - |held|;
      var n := if m < |later| then m else |later|;
      Run(held, later, first, frameCount, fps, limitSeconds, idOf).queued == held[first..] + later[..n]
  {
    StartedHolds(held, first, frameCount, fps, limitSeconds, idOf);
    var r := Started(held, first, frameCount, fps, limitSeconds, idOf);
    CaptureAllFlushed(r, later, idOf);
    var f := Flushed(r, idOf);
    assert f.queued == held[first..];
    assert f.video.value.frameNumber == |held| && f.firstFrameNumber == first;
    Record(f, later, idOf, frameCount);
  }

  /** In such a run the clean timer is started on the first capture once
      the first stimulus frame is known, and keeps running. */
  lemma {:induction false} RunStartsTimer(held: seq<Image>, later: seq<Image>, first: nat, frameCount: nat,
                       fps: real, limitSeconds: real, idOf: nat -> int)
    requires 0 < |held| && |later| > 0
    ensures Run(held, later, first, frameCount, fps, limitSeconds, idOf).timerRunning
  {
    StartedHolds(held, first, frameCount, fps, limitSeconds, idOf);
    var r := Started(held, first, frameCount, fps, limitSeconds, idOf);
    CaptureAllFlushed(r, later, idOf);
    TimerStaysRunning(Flushed(r, idOf), later, idOf);
  }

  /** The part of `a + b` from `i` up to `j` (or to its end) is the part of
      `a` from `i` followed by the start of `b`. */
  lemma {:induction false} SliceJoin<T>(a: seq<T>, b: seq<T>, i: nat, j: nat)
    requires i <= |a| <= j
    ensures var m := j - |a|;
      var n := if m < |b| then m else |b|;
      && (j <= |a + b| ==> a[i..] + b[..n] == (a + b)[i..j])
      && (j > |a + b| ==> a[i..] + b[..n] == (a + b)[i..])
  {
    var m := j - |a|;
    var n := if m < |b| then m else |b|;
    if j <= |a + b| {
      assert a[i..] + b[..n] == (a + b)[i..j];
    } else {
      assert b[..n] == b;
      assert a[i..] + b == (a + b)[i..];
    }
  }

  /** Once running, the clean timer stays running across captures. */
  lemma {:induction false} TimerStaysRunning(r: Recorder, images: seq<Image>, idOf: nat -> int)
    requires r.firstFrameNumber >= -1 && r.timerRunning
    ensures CaptureAll(r, images, idOf).timerRunning
    decreases |images|
  {
    if images != [] {
      TimerStaysRunning(Captured(r, images[0], idOf).0, images[1..], idOf);
    }
  }

  // ---------------------------------------------------------------------------
  // The clean timer

  /** `pending` without the entries whose ids are in `completed`. */
  function Without(pending: map<int, Image>, completed: seq<int>): map<int, Image> {
    map id | id in pending && id !in completed :: pending[id]
  }

  /** One tick of the clean timer: the completed ids leave the pending
      frames; with video info, the run is over once nothing is pending and
      the frame count has reached the expected count past the first
      stimulus frame, and then the timer stops. */
  function Tick(r: Recorder, completed: seq<int>): (Recorder, bool)
  {
    var pending := Without(r.pending, completed);
    var r1 := r.(pending := pending);
    if r1.video.None? then (r1, false)
    else
      var v := r1.video.value;
      if |pending.Keys| == 0 && v.frameNumber as real >= v.frameCount + r1.firstFrameNumber as real then
        (r1.(timerRunning := false), true)
      else (r1, false)
  }

  /** A tick releases exactly the completed frames, and ends the run only
      when nothing is pending and every expected frame was counted. */
  lemma {:induction false} TickReleases(r: Recorder, completed: seq<int>)
    ensures var (r', stop) := Tick(r, completed);
      && (forall id :: id in r'.pending <==> id in r.pending && id !in completed)
      && (forall id | id in r'.pending :: r'.pending[id] == r.pending[id])
      && (stop <==> r.video.Some? && r'.pending.Keys == {}
                    && r.video.value.frameNumber as real >= r.video.value.frameCount + r.firstFrameNumber as real)
      && (stop ==> !r'.timerRunning)
      && (!stop ==> r'.timerRunning == r.timerRunning)
  {
  }

  /** The release loop of the clean timer: each completed id still pending
      is deleted. */
  method Release(pending: map<int, Image>, completed: seq<int>) returns (rest: map<int, Image>)
    ensures rest == Without(pending, completed)
  {
    rest := pending;
    for i := 0 to |completed|
      invariant rest == Without(pending, completed[..i])
    {
      var id := completed[i];
      if id in rest {
        rest := rest - {id};
      }
      assert completed[..i + 1] == completed[..i] + [id];
    }
    assert completed[..|completed|] == completed;
  }

  // ---------------------------------------------------------------------------
  // The main process

  class Main {
    /** The native layer's frame ids: the k-th frame handed over gets
        `idOf(k)`. */
    const idOf: nat -> int
    var videoInfo: Option<Video>
    /** Whether a compiled program is loaded. */
    var hasProgram: bool
    var stimulusQueue: seq<Stimulus>
    var imageSet: set<Option<string>>
    var earlyFrameQueue: seq<Image>
    var firstFrameNumber: int
    var pendingFrames: map<int, Image>
    /** The frames handed to the native layer, in order. */
    var queued: seq<Image>
    var frameCleanTimer: bool

    /** The first stimulus frame number is a frame number or -1. */
    predicate Valid()
      reads this
    {
      firstFrameNumber >= -1
    }

    function Recording(): Recorder
      reads this
    {
      Recorder(videoInfo, firstFrameNumber, earlyFrameQueue, pendingFrames, queued, frameCleanTimer)
    }

    /** The process as started: no video info, no program, nothing queued,
        the first stimulus frame unknown, no timer. */
    constructor (idOf: nat -> int)
      ensures Valid() && this.idOf == idOf
      ensures videoInfo == None && !hasProgram && stimulusQueue == [] && imageSet == {}
      ensures earlyFrameQueue == [] && firstFrameNumber == -1 && pendingFrames == map[]
      ensures queued == [] && !frameCleanTimer
    {
      this.idOf := idOf;
      videoInfo := None;
      hasProgram := false;
      stimulusQueue := [];
      imageSet := {};
      earlyFrameQueue := [];
      firstFrameNumber := -1;
      pendingFrames := map[];
      queued := [];
      frameCleanTimer := false;
    }

    /** `generateStimuli`: without a program it throws; otherwise it queues
        the program's stimuli, collects their images, and sets the expected
        frame count to the summed lifespan times the frame rate, as
        `Generate` says. A null stimulus throws after what came before it is
        queued. The program's values are a parameter. */
    method GenerateStimuli(values: seq<Option<Stimulus>>) returns (err: Option<string>)
      modifies this
      ensures !old(hasProgram) ==> err == Some(NO_PROGRAM) && unchanged(this)
      ensures old(hasProgram) ==>
        && stimulusQueue == old(stimulusQueue) + Generation(old(videoInfo), values).taken
        && imageSet == old(imageSet) + Images(Generation(old(videoInfo), values).taken)
        && err == (if Generation(old(videoInfo), values).failed then Some(NULL_STIMULUS) else None)
        && videoInfo == (if Generation(old(videoInfo), values).failed then old(videoInfo)
                         else WithFrameCount(old(videoInfo), Generation(old(videoInfo), values).duration))
      ensures hasProgram == old(hasProgram) && earlyFrameQueue == old(earlyFrameQueue)
      ensures firstFrameNumber == old(firstFrameNumber) && pendingFrames == old(pendingFrames)
      ensures queued == old(queued) && frameCleanTimer == old(frameCleanTimer)
    {
      if !hasProgram {
        return Some(NO_PROGRAM);
      }
      ghost var g := Generation(videoInfo, values);
      var taken, durationSecs, failed := GenerateLoop(values, Limited(videoInfo), LimitOf(videoInfo));
      assert Generated(taken, durationSecs, failed) == g;
      stimulusQueue := stimulusQueue + taken;
      imageSet := imageSet + Images(taken);
      if failed {
        return Some(NULL_STIMULUS);
      }
      if videoInfo.Some? {
        var v := videoInfo.value;
        var frameCount := durationSecs * v.fps;
        assert frameCount == FrameCount(g.duration, v.fps);
        videoInfo := Some(v.(frameCount := frameCount));
      }
      err := None;
    }

    /** `getStimulusBatch`: throws without video info; otherwise hands out
        the first `BATCH_SIZE` queued stimuli (all of them when fewer) and
        keeps exactly the rest queued. Serialisation to JSON is not
        modelled. */
    method GetStimulusBatch() returns (batch: Result<seq<Stimulus>>)
      modifies this
      ensures videoInfo == old(videoInfo) && hasProgram == old(hasProgram) && imageSet == old(imageSet)
      ensures earlyFrameQueue == old(earlyFrameQueue) && firstFrameNumber == old(firstFrameNumber)
      ensures pendingFrames == old(pendingFrames) && queued == old(queued) && frameCleanTimer == old(frameCleanTimer)
      ensures old(videoInfo).None? ==> batch == Throw(NO_VIDEO_INFO) && stimulusQueue == old(stimulusQueue)
      ensures old(videoInfo).Some? ==>
        && batch.Ok?
        && |batch.value| == (if |old(stimulusQueue)| < BATCH_SIZE then |old(stimulusQueue)| else BATCH_SIZE)
        && batch.value + stimulusQueue == old(stimulusQueue)
    {
      if videoInfo.None? {
        return Throw(NO_VIDEO_INFO);
      }
      if |stimulusQueue| == 0 {
        return Ok([]);
      }
      var duplicateQueue: seq<Stimulus> := [];
      var i := 0;
      while i < |stimulusQueue| && i < BATCH_SIZE
        invariant 0 <= i <= |stimulusQueue| && i <= BATCH_SIZE
        invariant duplicateQueue == stimulusQueue[..i]
      {
        duplicateQueue := duplicateQueue + [stimulusQueue[i]];
        i := i + 1;
      }
      assert duplicateQueue + stimulusQueue[i..] == stimulusQueue;
      stimulusQueue := stimulusQueue[i..];
      batch := Ok(duplicateQueue);
    }

    /** `startStimuli`: the stimulus window reports the first frame that
        shows a stimulus. */
    method StartStimuli(frameNumber: nat)
      modifies this
      ensures Valid()
      ensures Recording() == old(Recording()).(firstFrameNumber := frameNumber)
      ensures hasProgram == old(hasProgram) && stimulusQueue == old(stimulusQueue) && imageSet == old(imageSet)
    {
      firstFrameNumber := frameNumber;
    }

    /** `startFrameCleanTimer`. */
    method StartFrameCleanTimer() returns (err: Option<string>)
      modifies this
      ensures (Recording(), err) == StartTimer(old(Recording()))
      ensures hasProgram == old(hasProgram) && stimulusQueue == old(stimulusQueue) && imageSet == old(imageSet)
    {
      if frameCleanTimer {
        return Some(TIMER_RUNNING);
      }
      frameCleanTimer := true;
      err := None;
    }

    /** Hands `image` to the native layer and keeps it pending under the id
        the native layer gives it. */
    method QueueNextFrame(image: Image)
      modifies this
      ensures Recording() == Submit(old(Recording()), image, idOf)
      ensures hasProgram == old(hasProgram) && stimulusQueue == old(stimulusQueue) && imageSet == old(imageSet)
    {
      var id := idOf(|queued|);
      queued := queued + [image];
      pendingFrames := pendingFrames[id := image];
    }

    /** The loop over the held-back frames from the first stimulus frame
        onward, each handed to the native layer in order. */
    method HandOverEarly()
      requires Valid() && firstFrameNumber >= 0
      modifies this
      ensures Valid()
      ensures firstFrameNumber == old(firstFrameNumber)
      ensures Recording() == SubmitAll(old(Recording()), FromFirst(old(earlyFrameQueue), old(firstFrameNumber)), idOf)
      ensures hasProgram == old(hasProgram) && stimulusQueue == old(stimulusQueue) && imageSet == old(imageSet)
    {
      ghost var start := Recording();
      ghost var rest := FromFirst(earlyFrameQueue, firstFrameNumber);
      var i := firstFrameNumber;
      while i < |earlyFrameQueue|
        invariant firstFrameNumber <= i
        invariant Valid() && earlyFrameQueue == start.early && firstFrameNumber == start.firstFrameNumber
        invariant rest == if i <= |earlyFrameQueue| then earlyFrameQueue[i..] else []
        invariant SubmitAll(start, FromFirst(start.early, start.firstFrameNumber), idOf)
               == SubmitAll(Recording(), rest, idOf)
        invariant hasProgram == old(hasProgram) && stimulusQueue == old(stimulusQueue) && imageSet == old(imageSet)
      {
        assert rest[1..] == earlyFrameQueue[i + 1..];
        QueueNextFrame(earlyFrameQueue[i]);
        rest := rest[1..];
        i := i + 1;
      }
    }

    /** `frameCaptured`, as `Captured` says. */
    method FrameCaptured(image: Image) returns (err: Option<string>)
      requires Valid()
      modifies this
      ensures Valid()
      ensures (Recording(), err) == Captured(old(Recording()), image, idOf)
      ensures hasProgram == old(hasProgram) && stimulusQueue == old(stimulusQueue) && imageSet == old(imageSet)
    {
      if videoInfo.None? {
        return None;
      }
      if firstFrameNumber == -1 {
        earlyFrameQueue := earlyFrameQueue + [image];
        videoInfo := Some(videoInfo.value.(frameNumber := videoInfo.value.frameNumber + 1));
        return None;
      }
      if |earlyFrameQueue| > 0 {
        HandOverEarly();
        earlyFrameQueue := [];
        err := StartFrameCleanTimer();
        if err.Some? {
          return;
        }
      }
      var v := videoInfo.value;
      if v.frameNumber as real >= v.frameCount + firstFrameNumber as real {
        return None;
      }
      QueueNextFrame(image);
      videoInfo := Some(v.(frameNumber := v.frameNumber + 1));
      err := None;
    }

    /** `runStopped`: drops the program, the stimulus queue, the image set
        and the held-back frames, and forgets the first stimulus frame.
        Closing the windows and the video output is not modelled. */
    method RunStopped()
      modifies this
      ensures Valid()
      ensures !hasProgram && stimulusQueue == [] && imageSet == {}
      ensures Recording() == old(Recording()).(early := [], firstFrameNumber := -1)
    {
      hasProgram := false;
      stimulusQueue := [];
      imageSet := {};
      earlyFrameQueue := [];
      firstFrameNumber := -1;
    }

    /** One tick of the clean timer: releases the completed frames (the ids
        the native layer reports), and when `Tick` says the run is over,
        stops the timer and the run. */
    method FrameCleanTick(completed: seq<int>) returns (stopped: bool)
      modifies this
      ensures Valid()
      ensures var (r, stop) := Tick(old(Recording()), completed);
        && stopped == stop
        && (stop ==> Recording() == r.(early := [], firstFrameNumber := -1)
                     && !hasProgram && stimulusQueue == [] && imageSet == {})
        && (!stop ==> Recording() == r && hasProgram == old(hasProgram)
                      && stimulusQueue == old(stimulusQueue) && imageSet == old(imageSet))
      requires Valid()
    {
      pendingFrames := Release(pendingFrames, completed);
      if videoInfo.None? {
        return false;
      }
      var framesProcessing := |pendingFrames.Keys|;
      var v := videoInfo.value;
      if framesProcessing == 0 && v.frameNumber as real >= v.frameCount + firstFrameNumber as real {
        frameCleanTimer := false;
        RunStopped();
        return true;
      }
      return false;
    }
  }
}
