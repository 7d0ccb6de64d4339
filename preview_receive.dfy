/** The preview receiver (`PreviewThread`): opens the named pipe the preview
    sender writes to, retrying while the pipe does not exist yet, then reads
    frame after frame (a fixed-size header, then as many bytes as the header
    announces) and puts a copy of each frame on the preview queue. */
module PreviewReceive {
  import opened Wrappers
  import opened Ints

  /** How many "file not found" answers the open loop tolerates. */
  const MAX_OPEN_FAILURES: nat := 30

  // ---------------------------------------------------------------------------
  // Opening the pipe

  /** The platform's answer to one `openNamedPipeForReading` call: success
      with a pipe id, or failure because the pipe does not exist yet, or any
      other failure. */
  datatype OpenAnswer = Opened(pipeId: uint64) | NotFound | OpenFailed

  /** How the open loop ends: with a pipe, giving up after too many "not
      found" answers, at another failure, or with the observed answers
      running out first. */
  datatype OpenOutcome = PipeOpened(pipeId: uint64) | GaveUp | OpenError | AttemptsOut

  /** The open loop with `failures` "not found" answers counted so far, when
      the platform answers `answers[i..]`: the outcome, the index just past
      the last answer used, and the failures counted (one 100 ms sleep each). */
  function OpenRun(answers: seq<OpenAnswer>, i: nat, failures: nat): (r: (OpenOutcome, nat, nat))
    requires i <= |answers| && failures <= MAX_OPEN_FAILURES
    ensures i <= r.1 <= |answers| && failures <= r.2 <= MAX_OPEN_FAILURES
    ensures r.0 == GaveUp <==> r.2 == MAX_OPEN_FAILURES
    decreases |answers| - i
  {
    if failures == MAX_OPEN_FAILURES then (GaveUp, i, failures)
    else if i == |answers| then (AttemptsOut, i, failures)
    else match answers[i]
      case Opened(id) => if id != 0 then (PipeOpened(id), i + 1, failures) else OpenRun(answers, i + 1, failures)
      case NotFound => OpenRun(answers, i + 1, failures + 1)
      case OpenFailed => (OpenError, i + 1, failures)
  }

  /** The number of "not found" answers in `answers[i..j]`. */
  function NotFounds(answers: seq<OpenAnswer>, i: nat, j: nat): nat
    requires i <= j <= |answers|
    decreases j - i
  {
    if i == j then 0 else (if answers[i] == NotFound then 1 else 0) + NotFounds(answers, i + 1, j)
  }

  /** An answer that leaves the open loop going: "not found", or a
      success that gave back the null id. */
  predicate Retries(a: OpenAnswer) {
    a == NotFound || a == Opened(0)
  }

  /** The open loop gives up exactly when the thirtieth "not found" answer
      arrives before any pipe or other failure, and every failure it counts
      is a "not found" answer; any other failure ends it at once. */
  lemma {:induction false} OpenRunMeaning(answers: seq<OpenAnswer>, i: nat, failures: nat)
    requires i <= |answers| && failures <= MAX_OPEN_FAILURES
    ensures var (o, calls, n) := OpenRun(answers, i, failures);
      && n == failures + NotFounds(answers, i, calls)
      && (o == GaveUp || o == AttemptsOut ==> forall k | i <= k < calls :: Retries(answers[k]))
      && (o.PipeOpened? || o == OpenError ==>
            && calls > i && (forall k | i <= k < calls - 1 :: Retries(answers[k]))
            && answers[calls - 1] == (if o == OpenError then OpenFailed else Opened(o.pipeId))
            && (o != OpenError ==> o.pipeId != 0))
    decreases |answers| - i
  {
    if failures < MAX_OPEN_FAILURES && i < |answers| {
      match answers[i]
      case Opened(id) =>
        if id == 0 {
          OpenRunMeaning(answers, i + 1, failures);
        }
      case NotFound =>
        OpenRunMeaning(answers, i + 1, failures + 1);
      case OpenFailed =>
    }
  }

  /** `run`'s open loop: retry while the pipe is not found, sleeping between
      attempts, until a pipe is open or thirty attempts have failed; any
      other failure returns at once. Returns the outcome, the calls made
      and the sleeps taken. */
  method OpenPipe(answers: seq<OpenAnswer>) returns (outcome: OpenOutcome, calls: nat, sleeps: nat)
    ensures (outcome, calls, sleeps) == OpenRun(answers, 0, 0)
  {
    var pipeId: uint64 := 0;
    var failCount := 0;
    calls := 0;
    while pipeId == 0 && failCount < MAX_OPEN_FAILURES
      invariant calls <= |answers| && failCount <= MAX_OPEN_FAILURES
      invariant pipeId == 0 ==> OpenRun(answers, calls, failCount) == OpenRun(answers, 0, 0)
      invariant pipeId != 0 ==> OpenRun(answers, 0, 0) == (PipeOpened(pipeId), calls, failCount)
      decreases |answers| - calls, pipeId == 0
    {
      if calls == |answers| {
        return AttemptsOut, calls, failCount;
      }
      var answer := answers[calls];
      calls := calls + 1;
      match answer
      case Opened(id) =>
        pipeId := id;
      case NotFound =>
        failCount := failCount + 1;
      case OpenFailed =>
        return OpenError, calls, failCount;
    }
    if pipeId == 0 {
      return GaveUp, calls, failCount;
    }
    outcome, sleeps := PipeOpened(pipeId), failCount;
  }

  // ---------------------------------------------------------------------------
  // readAll

  /** The platform's answer to one `read`: a count of bytes, or a failure
      that says whether the writer closed the pipe. */
  datatype ReadAnswer = Got(count: nat) | ReadFailed(closed: bool)

  /** How a `readAll` ends: the whole length read, a failure (closed pipe or
      other), or the observed answers running out first. */
  datatype ReadOutcome = ReadDone | ReadClosed | ReadError | ReadUnfinished

  /** The outcome of `readAll` with `done` bytes already read, when the
      platform's successive reads answer `answers[i..]`: the outcome, the
      index just past the last answer used, and the bytes read. */
  function ReadAllRun(length: nat, done: nat, answers: seq<ReadAnswer>, i: nat): (r: (ReadOutcome, nat, nat))
    requires i <= |answers|
    ensures i <= r.1 <= |answers| && done <= r.2
    ensures r.0 == ReadDone <==> r.2 >= length
    ensures r.0 == ReadClosed || r.0 == ReadError ==>
      r.1 > i && answers[r.1 - 1] == ReadFailed(r.0 == ReadClosed)
    decreases |answers| - i
  {
    if done >= length then (ReadDone, i, done)
    else if i == |answers| then (ReadUnfinished, i, done)
    else match answers[i]
      case ReadFailed(closed) => (if closed then ReadClosed else ReadError, i + 1, done)
      case Got(n) => ReadAllRun(length, done + n, answers, i + 1)
  }

  /** The platform keeps its promise to read at most what was asked: every
      count stays within the bytes still missing. */
  predicate Fits(length: nat, done: nat, answers: seq<ReadAnswer>, i: nat)
    requires i <= |answers|
    decreases |answers| - i
  {
    done >= length || i == |answers| ||
    match answers[i]
    case ReadFailed(_) => true
    case Got(n) => done + n <= length && Fits(length, done + n, answers, i + 1)
  }

  /** With a platform that reads at most what was asked, `readAll` never
      reads past the buffer, and a successful one has read exactly `length`
      bytes. */
  lemma {:induction false} ReadAllExact(length: nat, done: nat, answers: seq<ReadAnswer>, i: nat)
    requires i <= |answers| && done <= length && Fits(length, done, answers, i)
    ensures ReadAllRun(length, done, answers, i).2 <= length
    ensures ReadAllRun(length, done, answers, i).0 == ReadDone ==> ReadAllRun(length, done, answers, i).2 == length
    decreases |answers| - i
  {
    if done < length && i < |answers| && answers[i].Got? {
      ReadAllExact(length, done + answers[i].count, answers, i + 1);
    }
  }

  /** `readAll`: keep reading the rest of the buffer until `length` bytes
      are in; a failed read fails the whole call and reports whether the
      pipe was closed. */
  method ReadAll(length: uint32, answers: seq<ReadAnswer>) returns (outcome: ReadOutcome, calls: nat, bytesRead: nat)
    ensures (outcome, calls, bytesRead) == ReadAllRun(length, 0, answers, 0)
  {
    bytesRead, calls := 0, 0;
    while bytesRead < length
      invariant calls <= |answers|
      invariant ReadAllRun(length, bytesRead, answers, calls) == ReadAllRun(length, 0, answers, 0)
      decreases |answers| - calls
    {
      if calls == |answers| {
        return ReadUnfinished, calls, bytesRead;
      }
      var ret := answers[calls];
      calls := calls + 1;
      if ret.ReadFailed? {
        return if ret.closed then ReadClosed else ReadError, calls, bytesRead;
      }
      bytesRead := bytesRead + ret.count;
    }
    outcome := ReadDone;
  }

  // ---------------------------------------------------------------------------
  // The read loop

  /** The fields of a frame header: frame number, dimensions and the length
      of the frame bytes that follow. */
  datatype Header = Header(number: uint32, width: uint32, height: uint32, length: uint32)

  /** One pass of the read loop: the stop flag, the platform's answers to
      the header reads, what parsing the header gave (nothing when it
      failed), and the answers to the frame reads. */
  datatype ReceiveTick = ReceiveTick(stop: bool, header: seq<ReadAnswer>, parsed: Option<Header>, payload: seq<ReadAnswer>)

  /** How one pass ends: a frame received, the pipe closed by the writer, a
      read or header parse failure, or the observed answers running out in
      the middle of a read. */
  datatype PassEnd = Received(frame: Header) | PipeClosed | ReadFailure | ParseFailure | Stalled

  function EndOf(o: ReadOutcome): PassEnd
    requires o != ReadDone
  {
    match o
    case ReadClosed => PipeClosed
    case ReadError => ReadFailure
    case ReadUnfinished => Stalled
  }

  /** The length the header of a pass announced, if it was read and parsed. */
  function Announced(t: ReceiveTick, headerSize: nat): Option<uint32> {
    if ReadAllRun(headerSize, 0, t.header, 0).0 == ReadDone && t.parsed.Some? then Some(t.parsed.value.length) else None
  }

  function PassOf(t: ReceiveTick, headerSize: nat): PassEnd {
    var h := ReadAllRun(headerSize, 0, t.header, 0).0;
    if h != ReadDone then EndOf(h)
    else if t.parsed.None? then ParseFailure
    else
      var p := ReadAllRun(t.parsed.value.length, 0, t.payload, 0).0;
      if p == ReadDone then Received(t.parsed.value) else EndOf(p)
  }

  /** The buffer size after a pass: grown to the announced length when that
      exceeds it, never shrunk. */
  function Grow(bufferSize: uint32, announced: Option<uint32>): (size: uint32)
    ensures size >= bufferSize
    ensures announced.Some? ==> size >= announced.value
  {
    if announced.Some? && bufferSize < announced.value then announced.value else bufferSize
  }

  /** The frames received and the buffer size after a run of passes. */
  datatype Receipt = Receipt(frames: seq<Header>, bufferSize: uint32)

  function Receiving(ticks: seq<ReceiveTick>, headerSize: nat): Receipt {
    if ticks == [] then Receipt([], 0)
    else
      var r := Receiving(ticks[..|ticks| - 1], headerSize);
      var t := ticks[|ticks| - 1];
      var e := PassOf(t, headerSize);
      Receipt(r.frames + (if e.Received? then [e.frame] else []), Grow(r.bufferSize, Announced(t, headerSize)))
  }

  lemma {:induction false} ReceivingUnfold(ticks: seq<ReceiveTick>, n: nat, headerSize: nat)
    requires n < |ticks|
    ensures var r, e := Receiving(ticks[..n], headerSize), PassOf(ticks[n], headerSize);
      Receiving(ticks[..n + 1], headerSize)
        == Receipt(r.frames + (if e.Received? then [e.frame] else []), Grow(r.bufferSize, Announced(ticks[n], headerSize)))
  {
    assert ticks[..n + 1][..n] == ticks[..n];
  }

  /** Each frame of a run of passes that all received one is queued once,
      in arrival order. */
  lemma {:induction false} ReceivedInOrder(ticks: seq<ReceiveTick>, headerSize: nat)
    requires forall k | 0 <= k < |ticks| :: PassOf(ticks[k], headerSize).Received?
    ensures var fs := Receiving(ticks, headerSize).frames;
      |fs| == |ticks| && forall k | 0 <= k < |ticks| :: fs[k] == PassOf(ticks[k], headerSize).frame
  {
    if ticks != [] {
      ReceivedInOrder(ticks[..|ticks| - 1], headerSize);
    }
  }

  /** The largest of the announced lengths, 0 if there were none. */
  function MaxAnnounced(ticks: seq<ReceiveTick>, headerSize: nat): nat {
    if ticks == [] then 0
    else
      var m := MaxAnnounced(ticks[..|ticks| - 1], headerSize);
      match Announced(ticks[|ticks| - 1], headerSize)
      case None => m
      case Some(n) => if n > m then n else m
  }

  /** The buffer grows only when a header announces more than it holds: its
      size is the largest length announced so far, so it never shrinks and
      holds every frame read into it. */
  lemma {:induction false} BufferIsLargestAnnounced(ticks: seq<ReceiveTick>, headerSize: nat)
    ensures Receiving(ticks, headerSize).bufferSize == MaxAnnounced(ticks, headerSize)
    ensures forall k | 0 <= k < |ticks| && Announced(ticks[k], headerSize).Some? ::
      Announced(ticks[k], headerSize).value <= Receiving(ticks, headerSize).bufferSize
  {
    if ticks != [] {
      var n := |ticks| - 1;
      BufferIsLargestAnnounced(ticks[..n], headerSize);
      assert forall k | 0 <= k < n :: ticks[..n][k] == ticks[k];
    }
  }

  /** Why the read loop ended. Passes running out count as a stop. */
  datatype ReceiveExit = Stopped | Ended(end: PassEnd)

  /** The read loop of `run` over the given passes, with the pipe open.
      Returns the passes completed, why the loop ended, the frames queued
      and the final buffer size. */
  method Receive(headerSize: uint32, ticks: seq<ReceiveTick>)
    returns (passes: nat, exit: ReceiveExit, frames: seq<Header>, bufferSize: uint32)
    ensures passes <= |ticks|
    ensures forall k | 0 <= k < passes :: !ticks[k].stop && PassOf(ticks[k], headerSize).Received?
    ensures exit == Stopped ==> passes == |ticks| || ticks[passes].stop
    ensures exit.Ended? ==>
      && passes < |ticks| && !ticks[passes].stop
      && exit.end == PassOf(ticks[passes], headerSize) && !exit.end.Received?
    ensures frames == Receiving(ticks[..passes], headerSize).frames
    ensures bufferSize == if exit == Stopped then Receiving(ticks[..passes], headerSize).bufferSize
      else Receiving(ticks[..passes + 1], headerSize).bufferSize
  {
    passes, exit, frames, bufferSize := 0, Stopped, [], 0;
    while passes < |ticks| && !ticks[passes].stop
      invariant passes <= |ticks|
      invariant forall k | 0 <= k < passes :: !ticks[k].stop && PassOf(ticks[k], headerSize).Received?
      invariant Receiving(ticks[..passes], headerSize) == Receipt(frames, bufferSize)
    {
      ReceivingUnfold(ticks, passes, headerSize);
      var end;
      end, bufferSize := ReceiveOne(headerSize, ticks[passes], bufferSize);
      if !end.Received? {
        exit := Ended(end);
        return;
      }
      frames := frames + [end.frame];
      passes := passes + 1;
    }
  }

  /** One pass of the read loop: read the header, parse it, grow the buffer
      to the announced length if needed and read the payload. Returns how the
      pass ended and the buffer size after it. */
  method ReceiveOne(headerSize: uint32, t: ReceiveTick, bufferSize: uint32) returns (end: PassEnd, size: uint32)
    ensures end == PassOf(t, headerSize)
    ensures size == Grow(bufferSize, Announced(t, headerSize))
  {
    size := bufferSize;
    var read, calls, bytesRead := ReadAll(headerSize, t.header);
    if read != ReadDone {
      return EndOf(read), size;
    }
    if t.parsed.None? {
      return ParseFailure, size;
    }
    var header := t.parsed.value;
    if size < header.length {
      size := header.length;
    }
    read, calls, bytesRead := ReadAll(header.length, t.payload);
    if read != ReadDone {
      return EndOf(read), size;
    }
    end := Received(header);
  }

  class PreviewThread {
    const channelName: string
    /** The preview queue shared with `getNextFrame`: the frames received, as
        their headers (the copied pixels are not modelled). */
    var previewQueue: seq<Header>

    constructor (name: string, queue: seq<Header>)
      ensures channelName == name && previewQueue == queue
    {
      channelName, previewQueue := name, queue;
    }

    /** `run`: open the pipe (status 1 when that fails), then queue frames
        until stopped or the writer closes the pipe, close the pipe and
        return 0; a read failure other than a closed pipe, or a header that
        does not parse, returns 1 without closing it. */
    method Run(answers: seq<OpenAnswer>, headerSize: uint32, ticks: seq<ReceiveTick>)
      returns (status: Option<uint32>, passes: nat, closedPipe: bool)
      modifies this
      ensures passes <= |ticks|
      ensures !OpenRun(answers, 0, 0).0.PipeOpened? ==>
        && passes == 0 && !closedPipe && previewQueue == old(previewQueue)
        && status == (if OpenRun(answers, 0, 0).0 == AttemptsOut then None else Some(1))
      ensures OpenRun(answers, 0, 0).0.PipeOpened? ==>
        && previewQueue == old(previewQueue) + Receiving(ticks[..passes], headerSize).frames
        && (status == Some(0) <==> closedPipe)
        && (closedPipe <==> passes == |ticks| || ticks[passes].stop || PassOf(ticks[passes], headerSize) == PipeClosed)
        && (status.None? <==> !closedPipe && PassOf(ticks[passes], headerSize) == Stalled)
    {
      var openOutcome, calls, sleeps := OpenPipe(answers);
      passes, closedPipe := 0, false;
      if !openOutcome.PipeOpened? {
        status := if openOutcome == AttemptsOut then None else Some(1);
        return;
      }
      var exit, frames, bufferSize;
      passes, exit, frames, bufferSize := Receive(headerSize, ticks);
      previewQueue := previewQueue + frames;
      match exit
      case Stopped =>
        closedPipe, status := true, Some(0);
      case Ended(end) =>
        if end == PipeClosed {
          closedPipe, status := true, Some(0);
        } else if end == Stalled {
          status := None;
        } else {
          status := Some(1);
        }
    }
  }
}
