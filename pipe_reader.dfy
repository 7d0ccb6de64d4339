/** The pipe drainer (`PipeReader`): a thread that appends whatever arrives on a
    pipe to a buffer, and a `getData` that hands the buffer over and empties it. */
module PipeReaderStage {
  import opened Seqs

  /** Size of the stack buffer each read fills at most. */
  const ReadBufferSize: nat := 1024

  /** One pass of the reader loop as the platform answers it: the stop flag
      tested at the loop head, `waitForData`'s result (-1 error, 0 timeout,
      otherwise data ready), then `read`'s result (-1 error, else the byte
      count) with the bytes it delivered. */
  datatype ReadTick = ReadTick(stop: bool, waitResult: int, readResult: int, chunk: seq<bv8>)

  /** What the platform can answer: a read returns -1 or at most the buffer
      size, and delivers exactly as many bytes as it reports. */
  predicate PlatformTick(t: ReadTick) {
    -1 <= t.readResult <= ReadBufferSize && |t.chunk| == (if t.readResult > 0 then t.readResult else 0)
  }

  /** Whether a pass ends the loop: stop requested, or a -1 from wait or read. */
  predicate EndsLoop(t: ReadTick) {
    t.stop || t.waitResult == -1 || (t.waitResult != 0 && t.readResult == -1)
  }

  /** The bytes a pass appends: only a wait that reports data followed by a
      positive read appends, and it appends what was read. */
  function Appended(t: ReadTick): (bytes: seq<bv8>)
    ensures PlatformTick(t) ==> |bytes| <= ReadBufferSize
    ensures bytes != [] ==> !EndsLoop(t) && t.waitResult != 0 && t.readResult > 0
  {
    if EndsLoop(t) || t.waitResult == 0 || t.readResult <= 0 then [] else t.chunk
  }

  /** All bytes the first `n` passes append, in order. */
  function AppendedAll(ticks: seq<ReadTick>, n: nat): seq<bv8>
    requires n <= |ticks|
  {
    if n == 0 then [] else AppendedAll(ticks, n - 1) + Appended(ticks[n - 1])
  }

  class PipeReader {
    /** The pipe handle drained. */
    const file: nat
    /** The buffer `run` appends to and `getData` empties. */
    var data: seq<bv8>
    /** Every byte ever appended, and every byte ever handed out by `getData`. */
    ghost var received: seq<bv8>
    ghost var taken: seq<bv8>
    /** Whether the thread has been asked to stop and joined (`terminate`). */
    var stopped: bool

    /** Nothing is lost or duplicated: what was handed out, followed by what
        is still buffered, is exactly what was read. */
    ghost predicate Valid()
      reads this
    {
      taken + data == received
    }

    constructor (f: nat)
      ensures Valid() && file == f && data == [] && received == [] && taken == []
      ensures !stopped
    {
      file := f;
      data, received, taken := [], [], [];
      stopped := false;
    }

    /** `terminate`: stop the drainer thread; the buffer is left as it is. */
    method Terminate()
      modifies this
      ensures stopped
      ensures data == old(data) && received == old(received) && taken == old(taken)
    {
      stopped := true;
    }

    /** `getData`: return the buffered bytes and leave the buffer empty. */
    method GetData() returns (ret: seq<bv8>)
      requires Valid()
      modifies this
      ensures Valid()
      ensures ret == old(data) && data == []
      ensures taken == old(taken) + ret && received == old(received)
      ensures stopped == old(stopped)
    {
      ret := data;
      taken := taken + ret;
      data := [];
    }

    /** One pass of `run`'s loop: it reports whether the pass ends the loop,
        having appended what a positive read delivered. */
    method Pass(t: ReadTick) returns (ends: bool)
      requires Valid()
      modifies this
      ensures Valid()
      ensures ends == EndsLoop(t)
      ensures data == old(data) + Appended(t) && received == old(received) + Appended(t)
      ensures taken == old(taken) && stopped == old(stopped)
    {
      if t.stop {
        return true;
      }
      if t.waitResult == -1 {
        return true;
      } else if t.waitResult == 0 {
        return false;
      }
      if t.readResult == -1 {
        return true;
      } else if t.readResult > 0 {
        AppendAssoc(taken, data, t.chunk);
        data := data + t.chunk;
        received := received + t.chunk;
      }
      ends := false;
    }

    /** `run`: loop until a pass ends it (or the passes run out), appending each
        positive read to the buffer. */
    method Run(ticks: seq<ReadTick>) returns (passes: nat, status: nat)
      requires Valid()
      modifies this
      ensures Valid()
      ensures status == 0
      ensures passes <= |ticks|
      ensures forall k | 0 <= k < passes :: !EndsLoop(ticks[k])
      ensures passes < |ticks| ==> EndsLoop(ticks[passes])
      ensures data == old(data) + AppendedAll(ticks, passes)
      ensures received == old(received) + AppendedAll(ticks, passes)
      ensures taken == old(taken) && stopped == old(stopped)
    {
      passes := 0;
      while passes < |ticks|
        invariant Valid()
        invariant passes <= |ticks|
        invariant forall k | 0 <= k < passes :: !EndsLoop(ticks[k])
        invariant data == old(data) + AppendedAll(ticks, passes)
        invariant received == old(received) + AppendedAll(ticks, passes)
        invariant taken == old(taken) && stopped == old(stopped)
      {
        var ends := Pass(ticks[passes]);
        if ends {
          break;
        }
        AppendAssoc(old(data), AppendedAll(ticks, passes), Appended(ticks[passes]));
        AppendAssoc(old(received), AppendedAll(ticks, passes), Appended(ticks[passes]));
        passes := passes + 1;
      }
      status := 0;
    }
  }
}
