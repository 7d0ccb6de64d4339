/** The preview sender (`PreviewSendThread`): takes frames from its input
    queue, writes each one to a named pipe for the renderer's preview once the
    pipe is connected, then forwards the frame to its output queue, or, when
    it has none, releases it. The pipe goes through four states: closed,
    opening (created, waiting for the reader), open, and error, which is
    final. */
module PreviewSend {
  import opened Wrappers
  import opened Ints
  import opened Frames

  datatype ChannelState = Closed | Opening | Open | Error

  // ---------------------------------------------------------------------------
  // writeAll

  /** How a `writeAll` ends: the whole buffer accepted, a write that failed,
      or the observed platform answers running out first. */
  datatype WriteOutcome = Written | WriteFailed | Unfinished

  /** The platform's `write` calls report -1 on failure, else a byte count. */
  predicate WriteAnswers(answers: seq<int>) {
    forall k | 0 <= k < |answers| :: answers[k] >= -1
  }

  /** The outcome of `writeAll` with `done` bytes already accepted, when the
      platform's successive `write` calls answer `answers[i..]`, and the
      index just past the last answer used. */
  function WriteAllRun(length: nat, done: nat, answers: seq<int>, i: nat): (r: (WriteOutcome, nat))
    requires WriteAnswers(answers) && i <= |answers|
    ensures i <= r.1 <= |answers|
    ensures r.0 == WriteFailed ==> r.1 > i && answers[r.1 - 1] == -1
    decreases |answers| - i
  {
    if done >= length then (Written, i)
    else if i == |answers| then (Unfinished, i)
    else if answers[i] == -1 then (WriteFailed, i + 1)
    else WriteAllRun(length, done + answers[i], answers, i + 1)
  }

  /** The sum of `answers[i..j]`. */
  function Sum(answers: seq<int>, i: nat, j: nat): int
    requires i <= j <= |answers|
    decreases j - i
  {
    if i == j then 0 else answers[i] + Sum(answers, i + 1, j)
  }

  /** `writeAll`: keep writing the rest of the buffer until all of it has been
      accepted; a failed write fails the whole call. */
  method WriteAll(length: uint32, answers: seq<int>) returns (outcome: WriteOutcome, calls: nat)
    requires WriteAnswers(answers)
    ensures (outcome, calls) == WriteAllRun(length, 0, answers, 0)
  {
    var written: nat := 0;
    calls := 0;
    while written < length
      invariant calls <= |answers|
      invariant WriteAllRun(length, written, answers, calls) == WriteAllRun(length, 0, answers, 0)
      decreases |answers| - calls
    {
      if calls == |answers| {
        return Unfinished, calls;
      }
      var ret := answers[calls];
      calls := calls + 1;
      if ret == -1 {
        return WriteFailed, calls;
      }
      written := written + ret;
    }
    outcome := Written;
  }

  /** A completed `writeAll` made only successful calls, which together
      reported at least the whole buffer, and it stopped at the first call
      that reached it. */
  lemma {:induction false} WrittenCoversBuffer(length: nat, done: nat, answers: seq<int>, i: nat)
    requires WriteAnswers(answers) && i <= |answers|
    requires WriteAllRun(length, done, answers, i).0 == Written
    ensures var calls := WriteAllRun(length, done, answers, i).1;
      && (forall k | i <= k < calls :: answers[k] >= 0)
      && done + Sum(answers, i, calls) >= length
      && (calls > i ==> done + Sum(answers, i, calls - 1) < length)
    decreases |answers| - i
  {
    if done < length {
      WrittenCoversBuffer(length, done + answers[i], answers, i + 1);
    }
  }

  /** The platform keeps its promise to write at most what was asked: every
      count stays within the bytes still missing. */
  predicate WriteFits(length: nat, done: nat, answers: seq<int>, i: nat)
    requires i <= |answers|
    decreases |answers| - i
  {
    done >= length || i == |answers| || answers[i] < 0 ||
    (done + answers[i] <= length && WriteFits(length, done + answers[i], answers, i + 1))
  }

  /** When the platform writes at most what was asked, a completed
      `writeAll` was reported exactly the buffer's length, so the `uint32_t`
      count never passes the length and never wraps. */
  lemma {:induction false} WriteAllExact(length: nat, done: nat, answers: seq<int>, i: nat)
    requires WriteAnswers(answers) && i <= |answers| && done <= length && WriteFits(length, done, answers, i)
    requires WriteAllRun(length, done, answers, i).0 == Written
    ensures done + Sum(answers, i, WriteAllRun(length, done, answers, i).1) == length
    decreases |answers| - i
  {
    if done < length {
      WriteAllExact(length, done + answers[i], answers, i + 1);
    }
  }

  /** A platform that keeps accepting nothing keeps `writeAll` spinning: it
      never completes a non-empty buffer, however many calls it makes. */
  lemma {:induction false} ZeroWritesNeverFinish(length: nat, done: nat, answers: seq<int>, i: nat)
    requires done < length && i <= |answers|
    requires forall k | 0 <= k < |answers| :: answers[k] == 0
    ensures WriteAllRun(length, done, answers, i) == (Unfinished, |answers|)
    decreases |answers| - i
  {
    if i < |answers| {
      ZeroWritesNeverFinish(length, done, answers, i + 1);
    }
  }

  // ---------------------------------------------------------------------------
  // One pass of the send loop

  /** What the platform answers during one pass: whether creating the pipe
      succeeded and the id and opening flag it gave back, whether the
      connection check succeeded and found the reader connected, and whether
      the header and the frame bytes were written in full. */
  datatype Platform = Platform(created: bool, pipeId: nat, opening: bool,
                               openOk: bool, connected: bool, headerOk: bool, bodyOk: bool)

  /** The pipe state and id after a pass that dequeued a frame; whether the
      pass tried to write to the pipe, and whether the header and the frame
      both went through in full; and whether it left the pass early (the
      `continue` after a create, open or write failure). A failed attempt may
      have put part of the header, or the header and part of the frame, on
      the pipe. */
  datatype Step = Step(state: ChannelState, pipeId: nat, attempted: bool, wrote: bool, leftEarly: bool)

  function SendStep(state: ChannelState, pipeId: nat, name: string, p: Platform): (s: Step)
    ensures state == Error ==> s == Step(Error, pipeId, false, false, false)
    ensures s.leftEarly ==> s.state == Error
    ensures s.wrote <==> s.state == Open
    ensures s.wrote ==> s.attempted && !s.leftEarly
    ensures s.attempted && !s.wrote ==> s.state == Error && s.leftEarly && !(p.headerOk && p.bodyOk)
    ensures s.attempted ==> state != Error
    ensures s.state == Closed ==> state == Closed && !s.attempted
  {
    var create := state == Closed && name != "";
    if create && !p.created then Step(Error, p.pipeId, false, false, true)
    else
      var state1 := if create && p.pipeId != 0 then (if p.opening then Opening else Open) else state;
      var id1 := if create then p.pipeId else pipeId;
      if state1 == Opening && !p.openOk then Step(Error, id1, false, false, true)
      else
        var state2 := if state1 == Opening && p.connected then Open else state1;
        if state2 != Open then Step(state2, id1, false, false, false)
        else if p.headerOk && p.bodyOk then Step(Open, id1, true, true, false)
        else Step(Error, id1, true, false, true)
  }

  /** One pass of the loop: the stop flag; the frame `waitItem` returned
      within 50 ms, if any; the channel name `setPreviewChannel` stored since
      the previous pass, if it was called; and the platform's answers. */
  datatype SendTick = SendTick(stop: bool, item: Option<FrameWrapper>, setChannel: Option<string>, platform: Platform)

  /** A frame whose header and bytes were written to the pipe in full, with
      the frame number its header carries. */
  datatype Send = Send(number: uint32, frame: FrameWrapper)

  /** The sender's state after a run of passes: the pipe, the channel name,
      the frame counter, the frames written to the pipe in full, the frames handed on
      (forwarded or released) and the frames the loop lost track of. */
  datatype Sender = Sender(state: ChannelState, pipeId: nat, name: string, number: uint32,
                           sends: seq<Send>, handedOn: seq<FrameWrapper>, lost: seq<FrameWrapper>)

  function Renamed(s: Sender, t: SendTick): Sender {
    if t.setChannel.Some? then s.(name := t.setChannel.value) else s
  }

  /** A pass as the source writes it: a failure's `continue` skips handing
      the frame on and counting it. */
  function PassAsWritten(s0: Sender, t: SendTick): (s: Sender)
    ensures |s.handedOn| + |s.lost| == |s0.handedOn| + |s0.lost| + (if t.item.Some? then 1 else 0)
  {
    var s := Renamed(s0, t);
    match t.item
    case None => s
    case Some(f) =>
      var step := SendStep(s.state, s.pipeId, s.name, t.platform);
      var s := s.(state := step.state, pipeId := step.pipeId,
                  sends := s.sends + (if step.wrote then [Send(s.number, f)] else []));
      if step.leftEarly then s.(lost := s.lost + [f])
      else s.(handedOn := s.handedOn + [f], number := ToUint32(s.number + 1))
  }

  /** A pass as intended: every dequeued frame is handed on and counted,
      whether or not it reached the pipe. */
  function Pass(s0: Sender, t: SendTick): (s: Sender)
    ensures s.lost == s0.lost
    ensures s.handedOn == s0.handedOn + Dequeue(t)
    ensures s.sends == s0.sends + (if t.item.Some? && |s.sends| != |s0.sends| then [Send(s0.number, t.item.value)] else [])
  {
    var s := Renamed(s0, t);
    match t.item
    case None => s
    case Some(f) =>
      var step := SendStep(s.state, s.pipeId, s.name, t.platform);
      s.(state := step.state, pipeId := step.pipeId,
         sends := s.sends + (if step.wrote then [Send(s.number, f)] else []),
         handedOn := s.handedOn + [f], number := ToUint32(s.number + 1))
  }

  /** The sender before its first pass, with channel name `name`. */
  function Initial(name: string): Sender {
    Sender(Closed, 0, name, 0, [], [], [])
  }

  function FoldAsWritten(s: Sender, ticks: seq<SendTick>): Sender {
    if ticks == [] then s else PassAsWritten(FoldAsWritten(s, ticks[..|ticks| - 1]), ticks[|ticks| - 1])
  }

  function Fold(s: Sender, ticks: seq<SendTick>): Sender {
    if ticks == [] then s else Pass(Fold(s, ticks[..|ticks| - 1]), ticks[|ticks| - 1])
  }

  /** The frames dequeued over a run of passes, in order. */
  function Items(ticks: seq<SendTick>): (fs: seq<FrameWrapper>)
    ensures |fs| <= |ticks|
  {
    if ticks == [] then []
    else Items(ticks[..|ticks| - 1]) + Dequeue(ticks[|ticks| - 1])
  }

  /** The frame a pass dequeued, if any. */
  function Dequeue(t: SendTick): (fs: seq<FrameWrapper>)
    ensures |fs| == if t.item.Some? then 1 else 0
  {
    match t.item case None => [] case Some(f) => [f]
  }

  /** As intended, every dequeued frame is handed on, none is lost, and the
      frame counter (the number in the next header) counts the frames handed
      on, modulo 2^32. */
  lemma {:induction false} EveryFrameHandedOn(s: Sender, ticks: seq<SendTick>)
    ensures Fold(s, ticks).handedOn == s.handedOn + Items(ticks)
    ensures Fold(s, ticks).lost == s.lost
    ensures Fold(s, ticks).number == ToUint32(s.number + |Items(ticks)|)
  {
    if ticks != [] {
      var init := ticks[..|ticks| - 1];
      var last := ticks[|ticks| - 1];
      EveryFrameHandedOn(s, init);
      var before := Fold(s, init);
      assert Fold(s, ticks) == Pass(before, last);
      assert Items(ticks) == Items(init) + Dequeue(last);
      PassCounts(before, last, s.number + |Items(init)|);
      assert (s.handedOn + Items(init)) + Dequeue(last) == s.handedOn + (Items(init) + Dequeue(last));
    }
  }

  /** A pass counts the frame it hands on. */
  lemma {:induction false} PassCounts(s: Sender, t: SendTick, count: int)
    requires s.number == ToUint32(count)
    ensures Pass(s, t).number == ToUint32(count + (if t.item.Some? then 1 else 0))
  {
    if t.item.Some? {
      ToUint32Add(count, 1);
    }
  }

  /** The error state is final: once in it, the pipe is never written again. */
  lemma {:induction false} ErrorIsFinal(s: Sender, ticks: seq<SendTick>)
    requires s.state == Error
    ensures Fold(s, ticks).state == Error && Fold(s, ticks).sends == s.sends
    ensures FoldAsWritten(s, ticks).state == Error && FoldAsWritten(s, ticks).sends == s.sends
  {
    if ticks != [] {
      ErrorIsFinal(s, ticks[..|ticks| - 1]);
    }
  }

  lemma {:induction false} FoldUnfold(s: Sender, ticks: seq<SendTick>, n: nat)
    requires n < |ticks|
    ensures Fold(s, ticks[..n + 1]) == Pass(Fold(s, ticks[..n]), ticks[n])
  {
    assert ticks[..n + 1][..n] == ticks[..n];
  }

  /** Without a channel name the pipe is never created, so nothing is written. */
  lemma {:induction false} NoChannelNoWrites(s: Sender, ticks: seq<SendTick>)
    requires s.state == Closed && s.name == ""
    requires forall k | 0 <= k < |ticks| :: ticks[k].setChannel.None?
    ensures Fold(s, ticks).state == Closed && Fold(s, ticks).sends == s.sends && Fold(s, ticks).name == ""
  {
    if ticks != [] {
      NoChannelNoWrites(s, ticks[..|ticks| - 1]);
    }
  }

  /** As the source writes it, a failure to create the pipe loses the frame
      of that pass: it is neither forwarded (so its id never comes back from
      `checkCompletedFrames`) nor released, and is not counted. */
  lemma {:induction false} FailedCreateLosesFrame(f: FrameWrapper)
    ensures var ticks := [SendTick(false, Some(f), Some("preview"),
                                   Platform(false, 0, false, false, false, false, false))];
      && Items(ticks) == [f]
      && FoldAsWritten(Initial(""), ticks).handedOn == []
      && FoldAsWritten(Initial(""), ticks).lost == [f]
      && Fold(Initial(""), ticks).handedOn == [f]
  {
  }

  /** A pass that finds the pipe open but cannot write the header logs no
      send, as intended and as written, and moves the pipe to the error
      state; as written, the frame of that pass is also lost. */
  lemma {:induction false} FailedWriteSendsNothing(s: Sender, t: SendTick)
    requires t.item.Some? && Renamed(s, t).state == Open && !t.platform.headerOk
    ensures Pass(s, t).sends == s.sends && Pass(s, t).state == Error
    ensures PassAsWritten(s, t).sends == s.sends && PassAsWritten(s, t).state == Error
    ensures PassAsWritten(s, t).lost == s.lost + [t.item.value]
  {
  }

  /** The header sent before a frame: frame number, dimensions and length. */
  datatype Header = Header(number: uint32, width: uint32, height: uint32, length: uint32)

  /** What a send writes to the pipe: the header, then the frame's bytes
      (the owned buffer when there is one, else the borrowed one). */
  datatype Payload = Payload(header: Header, data: nat, length: uint32)

  /** The header a send writes, numbered `number`, and the buffer it writes
      after it. */
  function PayloadOf(number: uint32, f: FrameWrapper): (p: Payload)
    reads f
    ensures p.header.number == number && p.length == p.header.length
    ensures f.nativeFrame != 0 ==> p.data == f.nativeFrame && p.header.width == f.nativeWidth
    ensures f.nativeFrame == 0 ==> p.data == f.electronFrame && p.header.width == f.electronWidth
  {
    if f.nativeFrame != 0 then
      var n := ToUint32(f.nativeLength);
      Payload(Header(number, f.nativeWidth, f.nativeHeight, n), f.nativeFrame, n)
    else
      var n := ToUint32(f.electronLength);
      Payload(Header(number, f.electronWidth, f.electronHeight, n), f.electronFrame, n)
  }

  /** `written` is what the pipe received in full for `sends`: one header
      and buffer per send, in order. */
  predicate WrittenFor(written: seq<Payload>, sends: seq<Send>)
    reads set k | 0 <= k < |sends| :: sends[k].frame
  {
    |written| == |sends| && forall k | 0 <= k < |sends| :: written[k] == PayloadOf(sends[k].number, sends[k].frame)
  }

  class PreviewSendThread {
    /** Whether frames go on to an output queue (recording) or are released
        (playback). */
    const hasOutput: bool
    var previewChannelName: string

    constructor (output: bool)
      ensures hasOutput == output && previewChannelName == ""
    {
      hasOutput, previewChannelName := output, "";
    }

    method SetPreviewChannel(name: string)
      modifies this
      ensures previewChannelName == name
    {
      previewChannelName := name;
    }

    /** `run` as intended, over the given passes: the sender's state follows
        `Fold`; frames handed on go to the output queue, or are released when
        there is none; and the pipe is closed at the end unless it was never
        created. */
    method Run(ticks: seq<SendTick>)
      returns (passes: nat, final: Sender, written: seq<Payload>, forwarded: seq<FrameWrapper>, released: seq<FrameWrapper>, closed: bool)
      modifies this
      ensures passes <= |ticks| && (passes == |ticks| || ticks[passes].stop)
      ensures forall k | 0 <= k < passes :: !ticks[k].stop
      ensures final == Fold(Initial(old(previewChannelName)), ticks[..passes])
      ensures WrittenFor(written, final.sends)
      ensures forwarded == (if hasOutput then Items(ticks[..passes]) else [])
      ensures released == (if hasOutput then [] else Items(ticks[..passes]))
      ensures closed <==> final.state != Closed
      ensures previewChannelName == final.name
    {
      var handedOn;
      passes, final, written, handedOn := SendLoop(previewChannelName, ticks);
      forwarded := if hasOutput then handedOn else [];
      released := if hasOutput then [] else handedOn;
      closed := final.state != Closed;
      previewChannelName := final.name;
    }
  }

  /** The loop of `run`, starting with channel name `name0`; returns what
      was written to the pipe and the frames handed on. */
  method SendLoop(name0: string, ticks: seq<SendTick>)
    returns (passes: nat, final: Sender, written: seq<Payload>, handedOn: seq<FrameWrapper>)
    ensures passes <= |ticks| && (passes == |ticks| || ticks[passes].stop)
    ensures forall k | 0 <= k < passes :: !ticks[k].stop
    ensures final == Fold(Initial(name0), ticks[..passes])
    ensures WrittenFor(written, final.sends)
    ensures handedOn == Items(ticks[..passes])
  {
    final := Initial(name0);
    passes, written := 0, [];
    while passes < |ticks| && !ticks[passes].stop
      invariant passes <= |ticks|
      invariant forall k | 0 <= k < passes :: !ticks[k].stop
      invariant Fold(Initial(name0), ticks[..passes]) == final
      invariant WrittenFor(written, final.sends)
    {
      FoldUnfold(Initial(name0), ticks, passes);
      var before := final;
      final := SendPass(final, ticks[passes]);
      if |final.sends| != |before.sends| {
        // The header and the frame's buffer both went through the pipe in full.
        written := written + [PayloadOf(before.number, ticks[passes].item.value)];
      }
      assert forall k | 0 <= k < passes + 1 :: !ticks[k].stop by {
        assert !ticks[passes].stop;
      }
      passes := passes + 1;
    }
    EveryFrameHandedOn(Initial(name0), ticks[..passes]);
    assert final.handedOn == [] + Items(ticks[..passes]);
    handedOn := final.handedOn;
  }

  /** One pass of the loop, as intended: apply the pass's
      `setPreviewChannel` call; then, if a frame was dequeued, send it
      through the pipe when it can, hand it on and count it. */
  method SendPass(s0: Sender, t: SendTick) returns (s: Sender)
    ensures s == Pass(s0, t)
  {
    s := s0;
    if t.setChannel.Some? {
      s := s.(name := t.setChannel.value);
    }
    if t.item.Some? {
      var wrapper := t.item.value;
      var state, pipeId, attempted, wrote := Transmit(s.state, s.pipeId, s.name, t.platform);
      s := s.(state := state, pipeId := pipeId);
      if wrote {
        s := s.(sends := s.sends + [Send(s.number, wrapper)]);
      }
      // Hand the frame on.
      s := s.(handedOn := s.handedOn + [wrapper], number := ToUint32(s.number + 1));
    }
  }

  /** The pipe handling of one pass, as intended (a failure moves to the
      error state and the frame is handed on regardless). `attempted` says
      whether the header write was tried, `wrote` whether the header and the
      frame both went through in full. */
  method Transmit(state0: ChannelState, pipeId0: nat, name: string, p: Platform)
    returns (state: ChannelState, pipeId: nat, attempted: bool, wrote: bool)
    ensures var step := SendStep(state0, pipeId0, name, p);
      state == step.state && pipeId == step.pipeId && attempted == step.attempted && wrote == step.wrote
  {
    state, pipeId, attempted, wrote := state0, pipeId0, false, false;
    // Create the pipe once a channel name is known.
    if state == Closed && name != "" {
      pipeId := p.pipeId;
      if !p.created {
        return Error, pipeId, false, false;
      }
      if pipeId != 0 {
        state := if p.opening then Opening else Open;
      }
    }
    // Check whether the reader has connected.
    if state == Opening {
      if !p.openOk {
        return Error, pipeId, false, false;
      }
      if p.connected {
        state := Open;
      }
    }
    // Write the header, then the frame only if the header went through.
    if state == Open {
      attempted := true;
      if p.headerOk && p.bodyOk {
        wrote := true;
      } else {
        state := Error;
      }
    }
  }
}
