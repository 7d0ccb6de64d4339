/** The playback stage (`PlaybackThread`): probes each video, picks a monitor
    refresh rate that suits every video's frame rate, then decodes the videos
    one after the other, cutting the decoder's raw byte stream into frames of
    `width * height * 4` bytes for the presentation stage. */
module PlaybackStage {
  import opened Seqs
  import opened Wrappers
  import opened Text
  import opened Ints
  import opened Frames
  import opened ChildProcess
  import opened Ffprobe
  import opened Ffmpeg
  import opened Handoff

  // ---------------------------------------------------------------------------
  // formatDuration

  /** A field below 60 written with two digits, zero-padded. */
  function TwoDigits(n: nat): (s: string)
    requires n < 60
    ensures |s| == 2 && IsDigit(s[0]) && IsDigit(s[1])
  {
    [DigitChar(n / 10), DigitChar(n % 10)]
  }

  lemma {:induction false} TwoDigitsValue(n: nat)
    requires n < 60
    ensures DigitsValue(TwoDigits(n)) == n
  {
    var s := TwoDigits(n);
    assert s[..1] == [DigitChar(n / 10)] && s[..1][..0] == [];
    assert DigitsValue(s[..1]) == n / 10;
  }

  lemma {:induction false} DurationSplit(d: nat)
    ensures (d - d % 60) / 60 == d / 60
    ensures (d / 60 - d / 60 % 60) / 60 == d / 60 / 60
    ensures d / 60 / 60 == d / 3600
    ensures d / 3600 * 3600 + d / 60 % 60 * 60 + d % 60 == d
  {
    var q := d / 60;
    assert d == q * 60 + d % 60;
    assert q == q / 60 * 60 + q % 60;
  }

  /** `formatDuration`: seconds as "h:mm:ss". */
  function FormatDuration(durationSec: uint32): (s: string)
    ensures |s| >= 7 && s[|s| - 3] == ':' && s[|s| - 6] == ':'
  {
    var seconds := durationSec % 60;
    var durationMin := (durationSec - seconds) / 60;
    var minutes := durationMin % 60;
    var hours := (durationMin - minutes) / 60;
    NatToString(hours) + ":" + TwoDigits(minutes) + ":" + TwoDigits(seconds)
  }

  /** `FormatDuration(d)` is hours, minutes and seconds, each read back by
      `DigitsValue` (see `TwoDigitsValue` and `DigitsValueOfNatToString`),
      with minutes and seconds below 60 and the three adding up to `d`
      seconds. */
  lemma {:induction false} FormatDurationFields(d: uint32)
    ensures var hours, minutes, seconds := d / 3600, d / 60 % 60, d % 60;
      && FormatDuration(d) == NatToString(hours) + ":" + TwoDigits(minutes) + ":" + TwoDigits(seconds)
      && minutes < 60 && seconds < 60
      && hours * 3600 + minutes * 60 + seconds == d
  {
    DurationSplit(d);
  }

  // ---------------------------------------------------------------------------
  // Refresh-rate selection

  /** A monitor running at `freq` Hz shows a video at `fps` by holding each
      frame for `n` refreshes. */
  predicate ShowsAt(freq: uint32, fps: uint32, n: nat)
    requires n >= 1
  {
    freq % n == 0 && freq / n == fps
  }

  /** Some `n` in 1..4 fits. */
  predicate Compatible(freq: uint32, fps: uint32) {
    exists n | 1 <= n < 5 :: ShowsAt(freq, fps, n)
  }

  /** The inner `for` loop over `n`. */
  method MatchesRate(freq: uint32, fps: uint32) returns (ok: bool)
    ensures ok == Compatible(freq, fps)
  {
    var n := 1;
    while n < 5
      invariant 1 <= n <= 5
      invariant forall k | 1 <= k < n :: !ShowsAt(freq, fps, k)
    {
      if ShowsAt(freq, fps, n) {
        break;
      }
      n := n + 1;
    }
    ok := n != 5;
  }

  /** The frequencies, in order, compatible with one frame rate. */
  function Keep(freqs: seq<uint32>, fps: uint32): (kept: seq<uint32>)
    ensures |kept| <= |freqs|
  {
    if freqs == [] then []
    else
      var last := freqs[|freqs| - 1];
      Keep(freqs[..|freqs| - 1], fps) + (if Compatible(last, fps) then [last] else [])
  }

  /** The source's filtering: one pass over the list per video. */
  function Survivors(freqs: seq<uint32>, rates: seq<uint32>): seq<uint32> {
    if rates == [] then freqs else Keep(Survivors(freqs, rates[..|rates| - 1]), rates[|rates| - 1])
  }

  predicate SuitsAll(freq: uint32, rates: seq<uint32>) {
    forall k | 0 <= k < |rates| :: Compatible(freq, rates[k])
  }

  /** The reference: the frequencies, in their original order, that suit
      every video. */
  function SuitingAll(freqs: seq<uint32>, rates: seq<uint32>): seq<uint32> {
    if freqs == [] then []
    else
      var last := freqs[|freqs| - 1];
      SuitingAll(freqs[..|freqs| - 1], rates) + (if SuitsAll(last, rates) then [last] else [])
  }

  lemma {:induction false} KeepSuitingAll(freqs: seq<uint32>, rates: seq<uint32>, fps: uint32)
    ensures Keep(SuitingAll(freqs, rates), fps) == SuitingAll(freqs, rates + [fps])
  {
    var all := rates + [fps];
    if freqs != [] {
      var init := freqs[..|freqs| - 1];
      var last := freqs[|freqs| - 1];
      KeepSuitingAll(init, rates, fps);
      KeepAppend(SuitingAll(init, rates), if SuitsAll(last, rates) then [last] else [], fps);
      assert SuitsAll(last, all) <==> SuitsAll(last, rates) && Compatible(last, fps) by {
        if SuitsAll(last, rates) && Compatible(last, fps) {
          forall k | 0 <= k < |all| ensures Compatible(last, all[k]) {
            if k < |rates| { assert all[k] == rates[k]; }
          }
        }
        if SuitsAll(last, all) {
          assert all[|rates|] == fps;
          forall k | 0 <= k < |rates| ensures Compatible(last, rates[k]) {
            assert all[k] == rates[k];
          }
        }
      }
    }
  }

  lemma {:induction false} KeepAppend(a: seq<uint32>, b: seq<uint32>, fps: uint32)
    requires |b| <= 1
    ensures Keep(a + b, fps) == Keep(a, fps) + Keep(b, fps)
  {
    if b != [] {
      assert (a + b)[..|a + b| - 1] == a;
      assert b[..0] == [];
    } else {
      assert a + b == a;
    }
  }

  /** Filtering once per video keeps exactly the frequencies that suit every
      video, in their original order. */
  lemma {:induction false} SurvivorsSuitAll(freqs: seq<uint32>, rates: seq<uint32>)
    ensures Survivors(freqs, rates) == SuitingAll(freqs, rates)
  {
    if rates == [] {
      NoRatesKeepAll(freqs);
    } else {
      var init := rates[..|rates| - 1];
      SurvivorsSuitAll(freqs, init);
      KeepSuitingAll(freqs, init, rates[|rates| - 1]);
      assert init + [rates[|rates| - 1]] == rates;
    }
  }

  lemma {:induction false} NoRatesKeepAll(freqs: seq<uint32>)
    ensures SuitingAll(freqs, []) == freqs
  {
    if freqs != [] {
      NoRatesKeepAll(freqs[..|freqs| - 1]);
    }
  }

  /** A frequency is kept iff it is offered and suits every video. */
  lemma {:induction false} SuitingAllMembers(freqs: seq<uint32>, rates: seq<uint32>, f: uint32)
    ensures f in SuitingAll(freqs, rates) <==> f in freqs && SuitsAll(f, rates)
  {
    if freqs != [] {
      var init := freqs[..|freqs| - 1];
      SuitingAllMembers(init, rates, f);
      assert freqs == init + [freqs[|freqs| - 1]];
    }
  }

  /** The erase loop of `run` for one video: walk the list and erase the
      frequencies that do not suit `fps`. */
  method EraseUnsuited(list: seq<uint32>, fps: uint32) returns (survivors: seq<uint32>)
    ensures survivors == Keep(list, fps)
  {
    survivors := list;
    var at := 0;
    ghost var seen := 0;
    while at < |survivors|
      invariant seen <= |list| && at <= |survivors|
      invariant survivors == Keep(list[..seen], fps) + list[seen..]
      invariant at == |Keep(list[..seen], fps)|
      decreases |list| - seen
    {
      KeepStep(list, seen, fps);
      ghost var kept := Keep(list[..seen], fps);
      EraseStep(kept, list[seen..]);
      var ok := MatchesRate(survivors[at], fps);
      if !ok {
        survivors := survivors[..at] + survivors[at + 1..];
      } else {
        at := at + 1;
      }
      seen := seen + 1;
    }
    assert list[..seen] == list;
  }

  /** Keeping one more element of `list`. */
  lemma {:induction false} KeepStep(list: seq<uint32>, seen: nat, fps: uint32)
    requires seen < |list|
    ensures Keep(list[..seen + 1], fps)
            == Keep(list[..seen], fps) + (if Compatible(list[seen], fps) then [list[seen]] else [])
    ensures list[seen..][1..] == list[seen + 1..]
  {
    assert list[..seen + 1][..seen] == list[..seen];
  }

  /** Erasing, or stepping over, the element that follows the kept prefix. */
  lemma {:induction false} EraseStep(kept: seq<uint32>, rest: seq<uint32>)
    requires rest != []
    ensures (kept + rest)[|kept|] == rest[0]
    ensures (kept + rest)[..|kept|] + (kept + rest)[|kept| + 1..] == kept + rest[1..]
    ensures (kept + [rest[0]]) + rest[1..] == kept + rest
  {
    assert (kept + rest)[..|kept|] == kept;
    assert (kept + rest)[|kept| + 1..] == rest[1..];
    assert [rest[0]] + rest[1..] == rest;
  }

  /** The filtering loops of `run`: one erase pass per video. */
  method FilterFrequencies(freqs: seq<uint32>, rates: seq<uint32>) returns (survivors: seq<uint32>)
    ensures survivors == SuitingAll(freqs, rates)
  {
    survivors := freqs;
    var i := 0;
    while i < |rates|
      invariant i <= |rates|
      invariant survivors == Survivors(freqs, rates[..i])
    {
      survivors := EraseUnsuited(survivors, rates[i]);
      assert rates[..i + 1][..i] == rates[..i];
      i := i + 1;
    }
    assert rates[..i] == rates;
    SurvivorsSuitAll(freqs, rates);
  }

  // ---------------------------------------------------------------------------
  // Probing and choosing the refresh rate

  /** What `run` reports to JavaScript through the duration and position
      callbacks. */
  datatype Report = DurationReport(ms: int) | PositionReport(ms: int)

  /** How the preparation ends: a stop request after probing `probed`
      videos, no refresh rate suiting every video, or ready to play at the
      chosen refresh rate. */
  datatype Setup = ProbeStopped(probed: nat) | NoRefreshRate | Ready(refreshRate: uint32)

  function FrameRates(facts: seq<VideoFacts>): (rates: seq<uint32>)
    ensures |rates| == |facts|
    ensures forall k | 0 <= k < |facts| :: rates[k] == facts[k].fps
  {
    if facts == [] then [] else FrameRates(facts[..|facts| - 1]) + [facts[|facts| - 1].fps]
  }

  /** The first part of `run`: probe every video (`facts[i]` is what the
      probe of video `i` found; `stops[i]` whether a stop was requested by the
      time it finished), then keep the display frequencies that suit every
      video and choose the first. With none left, report a duration and a
      position of 0 and give up. On success `reports` is empty: the total
      duration that `run` reports next comes after this member and, being
      computed in floating point, is not modelled. */
  method Prepare(facts: seq<VideoFacts>, stops: seq<bool>, displayFrequencies: seq<uint32>)
    returns (setup: Setup, reports: seq<Report>)
    requires |stops| == |facts|
    ensures setup.ProbeStopped? <==> exists k | 0 <= k < |stops| :: stops[k]
    ensures setup.ProbeStopped? ==> (1 <= setup.probed <= |facts| && stops[setup.probed - 1]
      && (forall k | 0 <= k < setup.probed - 1 :: !stops[k]) && reports == [])
    ensures setup.NoRefreshRate? <==> !setup.ProbeStopped? && SuitingAll(displayFrequencies, FrameRates(facts)) == []
    ensures setup.NoRefreshRate? ==> reports == [DurationReport(0), PositionReport(0)]
    ensures setup.Ready? ==> (reports == []
      && setup.refreshRate == SuitingAll(displayFrequencies, FrameRates(facts))[0])
  {
    reports := [];
    var i := 0;
    while i < |facts|
      invariant i <= |facts|
      invariant forall k | 0 <= k < i :: !stops[k]
    {
      if stops[i] {
        return ProbeStopped(i + 1), [];
      }
      i := i + 1;
    }
    var survivors := FilterFrequencies(displayFrequencies, FrameRates(facts));
    if survivors == [] {
      return NoRefreshRate, [DurationReport(0), PositionReport(0)];
    }
    setup := Ready(survivors[0]);
  }

  // ---------------------------------------------------------------------------
  // Reassembling the decoder's byte stream into frames

  /** The bytes of a run of frames, end to end. */
  function Concat(chunks: seq<seq<bv8>>): seq<bv8> {
    if chunks == [] then [] else Concat(chunks[..|chunks| - 1]) + chunks[|chunks| - 1]
  }

  lemma {:induction false} ConcatAppend(chunks: seq<seq<bv8>>, c: seq<bv8>)
    ensures Concat(chunks + [c]) == Concat(chunks) + c
  {
    assert (chunks + [c])[..|chunks|] == chunks;
  }

  /** One copy step: what the frame still misses, or what is left of the
      chunk if that is less. */
  function CopyLength(frameSize: nat, filled: nat, available: nat): (n: nat)
    requires filled <= frameSize
    ensures n <= available && filled + n <= frameSize
    ensures n == available || filled + n == frameSize
  {
    if frameSize - filled > available then available else frameSize - filled
  }

  /** The source's inner `while (!data.empty())` loop as written, run for
      at most `steps` iterations on a frame holding `filled` bytes and a
      chunk of `left` bytes: the bytes then in the frame, the bytes of the
      chunk still unread, and the frames pushed. */
  function InnerLoop(frameSize: nat, filled: nat, left: nat, steps: nat): (r: (nat, nat, nat))
    requires filled < frameSize || filled == 0
    ensures r.1 <= left
    decreases steps
  {
    if steps == 0 || left == 0 then (filled, left, 0)
    else
      var n := CopyLength(frameSize, filled, left);
      var full := filled + n == frameSize;
      var r := InnerLoop(frameSize, if full then 0 else filled + n, left - n, steps - 1);
      (r.0, r.1, r.2 + (if full then 1 else 0))
  }

  /** With a frame size of 0 (a width or height of 0, or a product that
      wraps to 0 in 32 bits) every iteration copies nothing yet completes a
      frame: however many iterations run, the chunk is never consumed and
      an empty frame is pushed each time, so the loop never ends. */
  lemma {:induction false} ZeroFrameSizeNeverConsumes(left: nat, steps: nat)
    requires left > 0
    ensures InnerLoop(0, 0, left, steps) == (0, left, steps)
    decreases steps
  {
    if steps > 0 {
      ZeroFrameSizeNeverConsumes(left, steps - 1);
    }
  }

  /** With a positive frame size the loop consumes the whole chunk within
      as many iterations as the chunk has bytes, leaving the frame partial. */
  lemma {:induction false} PositiveFrameSizeConsumes(frameSize: nat, filled: nat, left: nat, steps: nat)
    requires filled < frameSize && steps >= left
    ensures InnerLoop(frameSize, filled, left, steps).1 == 0
    ensures InnerLoop(frameSize, filled, left, steps).0 < frameSize
    decreases steps
  {
    if steps > 0 && left > 0 {
      var n := CopyLength(frameSize, filled, left);
      CopyProgresses(frameSize, filled, left);
      var full := filled + n == frameSize;
      PositiveFrameSizeConsumes(frameSize, if full then 0 else filled + n, left - n, steps - 1);
    }
  }

  /** A copy step on a frame that is not yet full always makes progress. */
  lemma {:induction false} CopyProgresses(frameSize: nat, filled: nat, available: nat)
    requires filled < frameSize && available > 0
    ensures CopyLength(frameSize, filled, available) > 0
  {
  }

  /** The per-video decoding state of `run`: the frame counter, the bytes of
      the frame being filled (the record `wrapper` points to, which no other
      stage sees until it is pushed), the frames pushed to the pending queue,
      and (ghost) their contents and every byte taken from the decoder. */
  class Reassembly {
    const width: uint32
    const height: uint32
    const fps: uint32
    const frameSize: uint32
    var frameNumber: uint32
    var partial: seq<bv8>
    var frames: seq<FrameWrapper>
    ghost var chunks: seq<seq<bv8>>
    ghost var received: seq<bv8>

    /** The pushed frames are distinct records numbered by their position,
        each pushed holding exactly `frameSize` bytes (`chunks`, see `Push`);
        the frame being filled is not full; and the pushed frames followed by
        the partial one are exactly the bytes taken in, in order. */
    ghost predicate Valid()
      reads this
    {
      && |chunks| == |frames|
      && (forall k | 0 <= k < |chunks| :: |chunks[k]| == frameSize)
      && (forall i, j | 0 <= i < j < |frames| :: frames[i] != frames[j])
      && frameNumber == ToUint32(|frames|)
      && (|partial| < frameSize || (frameSize == 0 && partial == []))
      && received == Concat(chunks) + partial
    }

    /** Every pushed frame holds, in an owned buffer, the bytes its chunk
        records, and is numbered by its position. */
    ghost predicate AllDecoded()
      reads this, frames
    {
      |chunks| == |frames| && forall k | 0 <= k < |frames| :: Decoded(frames[k], chunks[k], k)
    }

    /** Frame `k` of the video holds `bytes` (exactly one frame's worth) in an
        owned buffer of the target dimensions. */
    ghost predicate Decoded(f: FrameWrapper, bytes: seq<bv8>, k: nat)
      reads f
    {
      && f.nativeBytes == bytes && |bytes| == frameSize
      && f.nativeLength == frameSize && f.nativeFrame != 0
      && f.nativeWidth == width && f.nativeHeight == height
      && f.fps == fps && f.number == ToUint32(k)
    }

    constructor (w: uint32, h: uint32, f: uint32)
      ensures Valid() && AllDecoded()
      ensures width == w && height == h && fps == f && frameSize == ToUint32(w * h * 4)
      ensures frameNumber == 0 && partial == [] && frames == [] && received == []
    {
      width, height, fps := w, h, f;
      frameSize := ToUint32(w * h * 4);
      frameNumber, partial, frames := 0, [], [];
      chunks, received := [], [];
    }

    /** The inner `while` loop of `run` over one chunk read from the decoder:
        fill the current frame, push it once full (as a record numbered with
        the counter, holding an owned buffer at address `alloc`), and go on
        until the chunk is used up. A zero frame size consumes nothing (see
        `ZeroFrameSizeNeverConsumes`). */
    method Take(chunk: seq<bv8>, alloc: nat)
      requires Valid() && AllDecoded() && alloc != 0
      modifies this
      ensures Valid() && AllDecoded()
      ensures received == old(received) + (if frameSize > 0 then chunk else [])
      ensures |frames| >= |old(frames)| && frames[..|old(frames)|] == old(frames)
    {
      if frameSize == 0 {
        return;
      }
      var pos := 0;
      while pos < |chunk|
        invariant pos <= |chunk|
        invariant Valid() && AllDecoded()
        invariant received == old(received) + chunk[..pos]
        invariant |frames| >= |old(frames)| && frames[..|old(frames)|] == old(frames)
      {
        var n := CopyLength(frameSize, |partial|, |chunk| - pos);
        CopyProgresses(frameSize, |partial|, |chunk| - pos);
        assert chunk[..pos + n] == chunk[..pos] + chunk[pos..pos + n];
        Fill(chunk[pos..pos + n], alloc);
        pos := pos + n;
      }
      assert chunk[..pos] == chunk;
    }

    /** Copy `piece` into the frame being filled, and push that frame once
        it is full. */
    method Fill(piece: seq<bv8>, alloc: nat)
      requires Valid() && AllDecoded() && alloc != 0 && |partial| + |piece| <= frameSize
      modifies this
      ensures Valid() && AllDecoded()
      ensures received == old(received) + piece
      ensures |frames| >= |old(frames)| && frames[..|old(frames)|] == old(frames)
    {
      partial := partial + piece;
      received := received + piece;
      if |partial| == frameSize {
        ghost var pushed := frames;
        Push(alloc);
        assert forall k | 0 <= k < |pushed| :: frames[k] == pushed[k];
      }
    }

    /** Push the full current frame to the pending queue, as a new record
        numbered with the counter that owns the frame's bytes. */
    method Push(alloc: nat)
      requires alloc != 0 && |partial| == frameSize
      requires |chunks| == |frames| && forall k | 0 <= k < |chunks| :: |chunks[k]| == frameSize
      requires forall i, j | 0 <= i < j < |frames| :: frames[i] != frames[j]
      requires frameNumber == ToUint32(|frames|)
      requires received == Concat(chunks) + partial
      modifies this
      ensures Valid() && partial == []
      ensures |frames| == |old(frames)| + 1 && frames[..|old(frames)|] == old(frames)
      ensures chunks == old(chunks) + [old(partial)]
      ensures fresh(frames[|old(frames)|]) && Decoded(frames[|old(frames)|], old(partial), |old(frames)|)
      ensures received == old(received)
    {
      var wrapper := NewDecodedFrame(frameNumber, alloc, partial, width, height, fps);
      ConcatAppend(chunks, partial);
      ToUint32Add(|frames|, 1);
      frames := frames + [wrapper];
      chunks := chunks + [partial];
      frameNumber := ToUint32(frameNumber + 1);
      partial := [];
    }
  }

  /** A new frame record numbered `number` owning the buffer at `alloc`
      filled with `bytes`, of the given dimensions and rate. */
  method NewDecodedFrame(number: uint32, alloc: nat, bytes: seq<bv8>, w: uint32, h: uint32, fps: uint32)
    returns (f: FrameWrapper)
    requires alloc != 0
    ensures fresh(f) && f.Valid()
    ensures f.number == number && f.nativeFrame == alloc && f.nativeBytes == bytes && f.nativeLength == |bytes|
    ensures f.nativeWidth == w && f.nativeHeight == h && f.fps == fps
  {
    f := new FrameWrapper(number);
    f.AttachNative(alloc, bytes, w, h);
    f.fps := fps;
  }

  // ---------------------------------------------------------------------------
  // The decoding loop for one video

  /** One pass of the decoding loop: whether a stop was requested by the
      time the loop condition is checked, the length of the pending queue,
      the bytes `readStdout` returns, the name `setPreviewChannel` stored
      meanwhile (if it was called), and the address of the buffers allocated
      for frames started during the pass. */
  datatype DecodeTick = DecodeTick(stop: bool, queued: nat, chunk: seq<bv8>, setChannel: Option<string>, alloc: nat)

  /** The pending queue holds five seconds of frames or more: the pass
      sleeps without reading. `5 * fps` is computed in 32 bits. */
  predicate Throttled(t: DecodeTick, fps: uint32) {
    t.queued >= ToUint32(5 * fps)
  }

  /** A pass that reads a non-empty chunk, converts it and reaches the
      hand-over step. */
  predicate Delivers(t: DecodeTick, fps: uint32) {
    !Throttled(t, fps) && t.chunk != []
  }

  function DecodeEvent(t: DecodeTick, fps: uint32): (e: Event)
    ensures e.setChannel == t.setChannel && (e.delivered <==> Delivers(t, fps))
  {
    Event(t.setChannel, Delivers(t, fps))
  }

  function DecodeEvents(ticks: seq<DecodeTick>, fps: uint32): (es: seq<Event>)
    ensures |es| == |ticks|
  {
    if ticks == [] then [] else DecodeEvents(ticks[..|ticks| - 1], fps) + [DecodeEvent(ticks[|ticks| - 1], fps)]
  }

  /** The decoder bytes a run of passes takes in, in order: nothing from a
      throttled pass. */
  function BytesRead(ticks: seq<DecodeTick>, fps: uint32): seq<bv8> {
    if ticks == [] then []
    else
      var t := ticks[|ticks| - 1];
      BytesRead(ticks[..|ticks| - 1], fps) + (if Throttled(t, fps) then [] else t.chunk)
  }

  /** Passes that are all throttled read nothing and hand nothing over. */
  lemma {:induction false} ThrottledReadsNothing(channel: string, ticks: seq<DecodeTick>, fps: uint32)
    requires forall k | 0 <= k < |ticks| :: Throttled(ticks[k], fps)
    ensures BytesRead(ticks, fps) == []
    ensures Run(channel, DecodeEvents(ticks, fps)).handed == []
  {
    if ticks != [] {
      var before := ticks[..|ticks| - 1];
      ThrottledReadsNothing(channel, before, fps);
      Step(channel, DecodeEvents(before, fps), DecodeEvent(ticks[|ticks| - 1], fps));
    }
  }

  /** The bytes a pass takes into frames: none when it is throttled, and
      none with a zero frame size (see `Reassembly.Take`). */
  function TakenIn(t: DecodeTick, fps: uint32, frameSize: uint32): (bytes: seq<bv8>)
    ensures bytes == [] || bytes == t.chunk
  {
    if frameSize > 0 && !Throttled(t, fps) then t.chunk else []
  }

  /** What a run of passes has done so far: the bytes taken into frames, the
      name still stored and the names handed to the sender. */
  datatype DecodeProgress = DecodeProgress(taken: seq<bv8>, channel: string, handed: seq<string>)

  /** The progress of a run of passes from the stored name `channel0`. */
  function Decoding(ticks: seq<DecodeTick>, fps: uint32, frameSize: uint32, channel0: string): DecodeProgress {
    if ticks == [] then DecodeProgress([], channel0, [])
    else
      var p := Decoding(ticks[..|ticks| - 1], fps, frameSize, channel0);
      var t := ticks[|ticks| - 1];
      var e := DecodeEvent(t, fps);
      DecodeProgress(p.taken + TakenIn(t, fps, frameSize), After(p.channel, e), p.handed + HandedIn(p.channel, e))
  }

  lemma {:induction false} DecodeUnfold(ticks: seq<DecodeTick>, n: nat, fps: uint32, frameSize: uint32, channel0: string)
    requires n < |ticks|
    ensures var p, t := Decoding(ticks[..n], fps, frameSize, channel0), ticks[n];
      Decoding(ticks[..n + 1], fps, frameSize, channel0)
        == DecodeProgress(p.taken + TakenIn(t, fps, frameSize), After(p.channel, DecodeEvent(t, fps)),
                          p.handed + HandedIn(p.channel, DecodeEvent(t, fps)))
  {
    assert ticks[..n + 1][..n] == ticks[..n];
  }

  /** The decoding loop takes exactly the bytes it read, into frames of a
      positive size, and follows the hand-over of `Handoff` over the passes'
      events. */
  lemma {:induction false} DecodingMeaning(ticks: seq<DecodeTick>, fps: uint32, frameSize: uint32, channel0: string)
    ensures var p := Decoding(ticks, fps, frameSize, channel0);
      && p.taken == (if frameSize > 0 then BytesRead(ticks, fps) else [])
      && Run(channel0, DecodeEvents(ticks, fps)) == Outcome(p.channel, p.handed)
  {
    if ticks != [] {
      var n := |ticks| - 1;
      DecodingMeaning(ticks[..n], fps, frameSize, channel0);
      Step(channel0, DecodeEvents(ticks[..n], fps), DecodeEvent(ticks[n], fps));
    }
  }

  /** The decoding loop of `run` for one video, with the decoder started and
      `r` fresh for it (frame counter at 0): runs while no stop is requested
      and fewer than `frameCount` frames were pushed; a pass sleeps while
      the pending queue is full, sleeps when the decoder had nothing, and
      otherwise cuts the chunk into frames and hands a stored preview
      channel name to the sender. Returns the passes completed, the names
      handed over and the name still stored. */
  method Decode(r: Reassembly, frameCount: uint32, ticks: seq<DecodeTick>, channel0: string)
    returns (passes: nat, handed: seq<string>, channel: string)
    requires r.Valid() && r.AllDecoded()
    requires forall k | 0 <= k < |ticks| :: ticks[k].alloc != 0
    modifies r
    ensures r.Valid() && r.AllDecoded()
    ensures passes <= |ticks|
    ensures forall k | 0 <= k < passes :: !ticks[k].stop
    ensures passes == |ticks| || ticks[passes].stop || r.frameNumber >= frameCount
    ensures var p := Decoding(ticks[..passes], r.fps, r.frameSize, channel0);
      r.received == old(r.received) + p.taken && channel == p.channel && handed == p.handed
  {
    passes, handed, channel := 0, [], channel0;
    ghost var taken: seq<bv8> := [];
    ghost var received0 := r.received;
    while passes < |ticks| && !ticks[passes].stop && r.frameNumber < frameCount
      invariant passes <= |ticks|
      invariant r.Valid() && r.AllDecoded()
      invariant forall k | 0 <= k < passes :: !ticks[k].stop
      invariant r.received == received0 + taken
      invariant Decoding(ticks[..passes], r.fps, r.frameSize, channel0) == DecodeProgress(taken, channel, handed)
    {
      var t := ticks[passes];
      DecodeUnfold(ticks, passes, r.fps, r.frameSize, channel0);
      var handedNow;
      ghost var read := TakenIn(t, r.fps, r.frameSize);
      AppendAssoc(received0, taken, read);
      ghost var channelBefore := channel;
      handedNow, channel := DecodePass(r, t, channel);
      ghost var e := DecodeEvent(t, r.fps);
      assert handedNow == HandedIn(channelBefore, e) && channel == After(channelBefore, e);
      taken := taken + read;
      handed := handed + handedNow;
      assert Decoding(ticks[..passes + 1], r.fps, r.frameSize, channel0) == DecodeProgress(taken, channel, handed);
      assert forall k | 0 <= k < passes + 1 :: !ticks[k].stop by {
        assert !t.stop;
      }
      passes := passes + 1;
    }
  }

  /** One pass of the decoding loop, once the loop condition holds. */
  method DecodePass(r: Reassembly, t: DecodeTick, channel0: string) returns (handed: seq<string>, channel: string)
    requires r.Valid() && r.AllDecoded() && t.alloc != 0
    modifies r
    ensures r.Valid() && r.AllDecoded()
    ensures r.received == old(r.received) + TakenIn(t, r.fps, r.frameSize)
    ensures handed == HandedIn(channel0, DecodeEvent(t, r.fps))
    ensures channel == After(channel0, DecodeEvent(t, r.fps))
  {
    channel := channel0;
    if t.setChannel.Some? {
      channel := t.setChannel.value;
    }
    if t.queued >= ToUint32(5 * r.fps) {
      return [], channel;
    }
    if t.chunk == [] {
      return [], channel;
    }
    r.Take(t.chunk, t.alloc);
    handed := [];
    if channel != "" {
      handed := [channel];
      channel := "";
    }
  }

  // ---------------------------------------------------------------------------
  // The thread object

  class PlaybackThread {
    const x: uint32
    const y: uint32
    const videos: seq<string>
    const scaleToFit: bool
    const ffmpegPath: string
    const ffprobePath: string
    /** The channel name waiting to be handed to the preview sender. */
    var channelName: string

    constructor (x1: uint32, y1: uint32, vids: seq<string>, scale: bool, ffmpeg: string, ffprobe: string)
      ensures x == x1 && y == y1 && videos == vids && scaleToFit == scale
      ensures ffmpegPath == ffmpeg && ffprobePath == ffprobe && channelName == ""
    {
      x, y, videos, scaleToFit := x1, y1, vids, scale;
      ffmpegPath, ffprobePath := ffmpeg, ffprobe;
      channelName := "";
    }

    /** `setPreviewChannel`: store the name for the next pass that reads. */
    method SetPreviewChannel(name: string)
      modifies this
      ensures channelName == name
    {
      channelName := name;
    }

    /** Decode one video (see `Decode`): a fresh frame counter, and the
        stored channel name carried over from and back to the thread. */
    method DecodeVideo(width: uint32, height: uint32, fps: uint32, frameCount: uint32, ticks: seq<DecodeTick>)
      returns (r: Reassembly, passes: nat, handed: seq<string>)
      requires forall k | 0 <= k < |ticks| :: ticks[k].alloc != 0
      modifies this
      ensures fresh(r) && r.Valid() && r.AllDecoded()
      ensures r.width == width && r.height == height && r.fps == fps
      ensures r.frameSize == ToUint32(width * height * 4)
      ensures passes <= |ticks|
      ensures forall k | 0 <= k < passes :: !ticks[k].stop
      ensures passes == |ticks| || ticks[passes].stop || r.frameNumber >= frameCount
      ensures r.received == (if r.frameSize > 0 then BytesRead(ticks[..passes], fps) else [])
      ensures Run(old(channelName), DecodeEvents(ticks[..passes], fps)) == Outcome(channelName, handed)
    {
      r := new Reassembly(width, height, fps);
      var channel;
      passes, handed, channel := Decode(r, frameCount, ticks, channelName);
      DecodingMeaning(ticks[..passes], fps, r.frameSize, channelName);
      channelName := channel;
    }

    /** Stop the decoder once its video is done: if its process still runs,
        wait for it (closing its stdin) unless a stop was requested, in which
        case terminate it; then destroy it. */
    method FinishVideo(decoder: PlaybackProcess, stopping: bool, platformRunning: bool)
      returns (waited: bool, terminated: bool)
      requires decoder.handles.Valid()
      modifies decoder.stdoutReader, decoder.stderrReader, decoder.handles
      ensures decoder.handles.Valid()
      ensures waited <==> old(decoder.handles.IsProcessRunning(platformRunning)) && !stopping
      ensures terminated <==> old(decoder.handles.IsProcessRunning(platformRunning)) && stopping
      ensures decoder.handles.terminations == old(decoder.handles.terminations) + (if terminated then 1 else 0)
      ensures decoder.handles.stdin == 0 && decoder.handles.stdout == 0 && decoder.handles.stderr == 0
      ensures decoder.handles.pid == old(decoder.handles.pid)
      ensures decoder.stdoutReader != null ==> decoder.stdoutReader.stopped
      ensures decoder.stderrReader != null ==> decoder.stderrReader.stopped
    {
      waited, terminated := false, false;
      if decoder.handles.IsProcessRunning(platformRunning) {
        if !stopping {
          decoder.handles.WaitForExit();
          waited := true;
        } else {
          decoder.handles.TerminateProcess();
          terminated := true;
        }
      }
      decoder.Destroy();
    }
  }
}
