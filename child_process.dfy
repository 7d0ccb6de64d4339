/** What the four child-process wrappers (FfprobeProcess, FfmpegRecordProcess,
    FfmpegPlaybackProcess, FfmpegProcess) share, textually identical in each:
    the process and pipe handles with `cleanUpProcess`, `waitForExit` and
    `isProcessRunning`, `writeStdin`, the `strtok`-based `splitString`, and the
    monitor loop of `run` that watches the process and its two pipe drainers. */
module ChildProcess {

  // ------------------------------------------------------------------
  // splitString: the tokens `strtok` returns
  // ------------------------------------------------------------------

  /** Length of the token at the start of `s`: the longest prefix free of separators. */
  function TokenLength<T(==)>(s: seq<T>, sep: set<T>): (n: nat)
    ensures n <= |s|
    ensures forall i | 0 <= i < n :: s[i] !in sep
    ensures n < |s| ==> s[n] in sep
  {
    if s == [] || s[0] in sep then 0 else 1 + TokenLength(s[1..], sep)
  }

  /** Token: non-empty and free of separator characters. */
  predicate IsToken<T(==)>(t: seq<T>, sep: set<T>) {
    t != [] && forall i | 0 <= i < |t| :: t[i] !in sep
  }

  /** The tokens that successive `strtok` calls return: the maximal runs of
      non-separator characters, in order; runs of separators yield nothing. */
  function Tokens<T(==)>(s: seq<T>, sep: set<T>): (ts: seq<seq<T>>)
    ensures forall k | 0 <= k < |ts| :: IsToken(ts[k], sep)
    decreases |s|
  {
    if s == [] then []
    else if s[0] in sep then Tokens(s[1..], sep)
    else
      var n := TokenLength(s, sep);
      [s[..n]] + Tokens(s[n..], sep)
  }

  function Flatten<T>(ts: seq<seq<T>>): seq<T> {
    if ts == [] then [] else ts[0] + Flatten(ts[1..])
  }

  /** `s` with every separator character removed. */
  function Kept<T(==)>(s: seq<T>, sep: set<T>): seq<T> {
    if s == [] then [] else (if s[0] in sep then [] else [s[0]]) + Kept(s[1..], sep)
  }

  /** Joining tokens with one separator character. */
  function Join<T>(ts: seq<seq<T>>, c: T): seq<T> {
    if ts == [] then [] else if |ts| == 1 then ts[0] else ts[0] + [c] + Join(ts[1..], c)
  }

  lemma {:induction false} KeptOfToken<T>(t: seq<T>, sep: set<T>)
    requires forall i | 0 <= i < |t| :: t[i] !in sep
    ensures Kept(t, sep) == t
  {
    if t != [] {
      KeptOfToken(t[1..], sep);
    }
  }

  lemma {:induction false} KeptAppend<T>(a: seq<T>, b: seq<T>, sep: set<T>)
    ensures Kept(a + b, sep) == Kept(a, sep) + Kept(b, sep)
  {
    if a != [] {
      assert (a + b)[0] == a[0];
      assert (a + b)[1..] == a[1..] + b;
      KeptAppend(a[1..], b, sep);
      var h := if a[0] in sep then [] else [a[0]];
      assert Kept(a + b, sep) == h + Kept(a[1..] + b, sep);
      assert h + (Kept(a[1..], sep) + Kept(b, sep)) == (h + Kept(a[1..], sep)) + Kept(b, sep);
    } else {
      assert a + b == b;
    }
  }

  /** Nothing but separators is lost: the tokens, concatenated, are the input
      without its separator characters. */
  lemma {:induction false} FlattenTokens<T>(s: seq<T>, sep: set<T>)
    ensures Flatten(Tokens(s, sep)) == Kept(s, sep)
    decreases |s|
  {
    if s != [] {
      if s[0] in sep {
        FlattenTokens(s[1..], sep);
      } else {
        var n := TokenLength(s, sep);
        FlattenTokens(s[n..], sep);
        assert s == s[..n] + s[n..];
        KeptAppend(s[..n], s[n..], sep);
        KeptOfToken(s[..n], sep);
        var ts := Tokens(s, sep);
        assert ts[1..] == Tokens(s[n..], sep);
      }
    }
  }

  /** Splitting is the inverse of joining with a separator: a line list written
      one token per line comes back unchanged. */
  lemma {:induction false} TokensOfJoin<T>(ts: seq<seq<T>>, sep: set<T>, c: T)
    requires c in sep
    requires forall k | 0 <= k < |ts| :: IsToken(ts[k], sep)
    ensures Tokens(Join(ts, c), sep) == ts
    decreases |ts|
  {
    if ts == [] {
    } else if |ts| == 1 {
      TokensOfTokenThen(ts[0], [], sep);
      assert ts[0] + [] == ts[0];
      assert ts == [ts[0]];
    } else {
      var rest := Join(ts[1..], c);
      TokensOfJoin(ts[1..], sep, c);
      assert Join(ts, c) == ts[0] + ([c] + rest);
      TokensOfTokenThen(ts[0], [c] + rest, sep);
      assert ([c] + rest)[1..] == rest;
    }
  }

  lemma {:induction false} TokensOfTokenThen<T>(t: seq<T>, rest: seq<T>, sep: set<T>)
    requires IsToken(t, sep)
    requires rest == [] || rest[0] in sep
    ensures Tokens(t + rest, sep) == [t] + Tokens(rest, sep)
  {
    var s := t + rest;
    TokenLengthOfTokenThen(t, rest, sep);
    assert s[..|t|] == t && s[|t|..] == rest;
  }

  lemma {:induction false} TokenLengthOfTokenThen<T>(t: seq<T>, rest: seq<T>, sep: set<T>)
    requires forall i | 0 <= i < |t| :: t[i] !in sep
    requires rest == [] || rest[0] in sep
    ensures TokenLength(t + rest, sep) == |t|
  {
    if t != [] {
      assert (t + rest)[1..] == t[1..] + rest;
      TokenLengthOfTokenThen(t[1..], rest, sep);
    }
  }

  /** `splitString(str, sep)`: repeated `strtok` calls, each skipping separators
      and returning the next token, until none is left. */
  method SplitString<T(==)>(str: seq<T>, sep: set<T>) returns (arr: seq<seq<T>>)
    ensures arr == Tokens(str, sep)
  {
    arr := [];
    var i := 0;
    while i < |str|
      invariant 0 <= i <= |str|
      invariant arr + Tokens(str[i..], sep) == Tokens(str, sep)
    {
      if str[i] in sep {
        assert str[i..][1..] == str[i + 1..];
        i := i + 1;
      } else {
        var j := TokenEnd(str, sep, i);
        TokensAt(str, sep, i, j);
        assert (arr + [str[i..j]]) + Tokens(str[j..], sep) == arr + ([str[i..j]] + Tokens(str[j..], sep));
        arr := arr + [str[i..j]];
        i := j;
      }
    }
  }

  /** The scan for the end of the token starting at `i`: the first
      separator from `i` on, or the end of the string. */
  method TokenEnd<T(==)>(str: seq<T>, sep: set<T>, i: nat) returns (j: nat)
    requires i <= |str|
    ensures i <= j <= |str|
    ensures forall k | i <= k < j :: str[k] !in sep
    ensures j == |str| || str[j] in sep
  {
    j := i;
    while j < |str| && str[j] !in sep
      invariant i <= j <= |str|
      invariant forall k | i <= k < j :: str[k] !in sep
    {
      j := j + 1;
    }
  }

  /** The text from `i` on starts with the token that runs up to `j`. */
  lemma {:induction false} TokensAt<T>(str: seq<T>, sep: set<T>, i: nat, j: nat)
    requires i < j <= |str|
    requires forall k | i <= k < j :: str[k] !in sep
    requires j == |str| || str[j] in sep
    ensures Tokens(str[i..], sep) == [str[i..j]] + Tokens(str[j..], sep)
  {
    TokenLengthOfTokenThen(str[i..j], str[j..], sep);
    assert str[i..] == str[i..j] + str[j..];
  }

  // ------------------------------------------------------------------
  // Argument lists
  // ------------------------------------------------------------------

  /** The command line carries option `flag` at position `i`, followed by its value. */
  predicate OptionAt(args: seq<string>, i: nat, flag: string, value: string) {
    i + 1 < |args| && args[i] == flag && args[i + 1] == value
  }

  // ------------------------------------------------------------------
  // Process and pipe handles
  // ------------------------------------------------------------------

  /** What `platform::spawnProcess` reports: failure, or the new process id and
      its stdin, stdout and stderr pipe handles. */
  datatype Spawn = SpawnFailed | Spawned(pid: nat, stdin: nat, stdout: nat, stderr: nat)

  /** The process id and the three pipe handles of a child process; 0 stands for
      "none" or "closed". `closed` records every handle given to `platform::close`
      and `terminations` every `platform::terminateProcess` call. */
  class ProcessHandles {
    var pid: nat
    var stdin: nat
    var stdout: nat
    var stderr: nat
    var processStarted: bool
    var closed: seq<nat>
    var terminations: nat

    /** A handle still held has not been closed yet. */
    ghost predicate Held(h: nat)
      reads this
    {
      h != 0 ==> h !in closed
    }

    /** No handle is closed twice, and the handles still held are open and distinct. */
    ghost predicate Valid()
      reads this
    {
      && (forall i, j | 0 <= i < j < |closed| :: closed[i] != closed[j])
      && Held(stdin) && Held(stdout) && Held(stderr)
      && (stdin != 0 && stdout != 0 ==> stdin != stdout)
      && (stdin != 0 && stderr != 0 ==> stdin != stderr)
      && (stdout != 0 && stderr != 0 ==> stdout != stderr)
    }

    /** The in-class initialisers: no process, no handles. */
    constructor ()
      ensures Valid()
      ensures pid == 0 && stdin == 0 && stdout == 0 && stderr == 0
      ensures !processStarted && closed == [] && terminations == 0
    {
      pid, stdin, stdout, stderr := 0, 0, 0, 0;
      processStarted := false;
      closed, terminations := [], 0;
    }

    /** Whether a spawn outcome can come from the platform given the handles
        already closed: a fresh process id and three fresh, distinct handles. */
    ghost predicate Spawnable(spawn: Spawn)
      reads this
    {
      spawn.Spawned? ==>
        && spawn.pid != 0 && spawn.stdin != 0 && spawn.stdout != 0 && spawn.stderr != 0
        && spawn.stdin != spawn.stdout && spawn.stdin != spawn.stderr && spawn.stdout != spawn.stderr
        && spawn.stdin !in closed && spawn.stdout !in closed && spawn.stderr !in closed
    }

    /** `startProcess`: `platform::spawnProcess` either fails and leaves the
        handles alone, or gives a process id and three pipe handles. */
    method StartProcess(spawn: Spawn) returns (ok: bool)
      requires Valid() && Spawnable(spawn)
      modifies this
      ensures Valid()
      ensures ok == spawn.Spawned?
      ensures ok ==> pid == spawn.pid && stdin == spawn.stdin && stdout == spawn.stdout && stderr == spawn.stderr
      ensures !ok ==> unchanged(this)
      ensures closed == old(closed) && terminations == old(terminations)
      ensures processStarted == old(processStarted)
    {
      ok := spawn.Spawned?;
      if ok {
        pid, stdin, stdout, stderr := spawn.pid, spawn.stdin, spawn.stdout, spawn.stderr;
      }
    }

    /** `isProcessRunning`: false without a process id, else the platform's answer. */
    function IsProcessRunning(platformRunning: bool): (running: bool)
      reads this
      ensures running <==> pid != 0 && platformRunning
    {
      if pid == 0 then false else platformRunning
    }

    /** The first half of `waitForExit`: close stdin (the encoder sees end of
        input) unless it is already closed. */
    method WaitForExit()
      requires Valid()
      modifies this
      ensures Valid()
      ensures stdin == 0
      ensures closed == old(closed) + (if old(stdin) != 0 then [old(stdin)] else [])
      ensures pid == old(pid) && stdout == old(stdout) && stderr == old(stderr)
      ensures processStarted == old(processStarted) && terminations == old(terminations)
    {
      if stdin != 0 {
        closed := closed + [stdin];
        stdin := 0;
      }
    }

    /** `terminateProcess`: one forced termination of the process. */
    method TerminateProcess()
      modifies this
      ensures terminations == old(terminations) + 1
      ensures pid == old(pid) && stdin == old(stdin) && stdout == old(stdout) && stderr == old(stderr)
      ensures closed == old(closed) && processStarted == old(processStarted)
    {
      terminations := terminations + 1;
    }

    /** `cleanUpProcess`: close every handle still held, once, and zero it. */
    method CleanUpProcess()
      requires Valid()
      modifies this
      ensures Valid()
      ensures stdin == 0 && stdout == 0 && stderr == 0
      ensures closed == old(closed) + Closing(old(stdin), old(stdout), old(stderr))
      ensures pid == old(pid) && processStarted == old(processStarted)
      ensures terminations == old(terminations)
    {
      if stdin != 0 {
        closed := closed + [stdin];
        stdin := 0;
      }
      if stdout != 0 {
        closed := closed + [stdout];
        stdout := 0;
      }
      if stderr != 0 {
        closed := closed + [stderr];
        stderr := 0;
      }
    }

    /** `writeStdin` as the source writes it: `(n >= 0) || ((uint32_t)n == length)`
        where `n` is what `platform::write` returned (-1 on failure, else the
        number of bytes accepted). */
    function WriteStdinAsWritten(length: nat, written: int): (ok: bool)
      reads this
      requires -1 <= written <= length
      ensures ok <==> stdin != 0 && (written >= 0 || length == 0xFFFF_FFFF)
    {
      if stdin == 0 then false
      else written >= 0 || written % 0x1_0000_0000 == length
    }

    /** `writeStdin` as evidently intended: success exactly when stdin is open and
        the whole buffer was accepted. */
    function WriteStdin(length: nat, written: int): (ok: bool)
      reads this
      requires -1 <= written <= length
      ensures ok <==> stdin != 0 && written == length
      ensures ok ==> WriteStdinAsWritten(length, written)
    {
      stdin != 0 && written >= 0 && written == length
    }
  }

  /** The handles among stdin, stdout and stderr that are still held, in the
      order `cleanUpProcess` closes them. */
  function Closing(i: nat, o: nat, e: nat): seq<nat> {
    (if i != 0 then [i] else []) + (if o != 0 then [o] else []) + (if e != 0 then [e] else [])
  }

  /** A short write: the source reports success although only half the frame
      reached the encoder, where the corrected check reports failure. */
  lemma {:induction false} ShortWriteAccepted(h: ProcessHandles)
    requires h.stdin != 0
    ensures h.WriteStdinAsWritten(100, 50) && !h.WriteStdin(100, 50)
  {
  }

  /** A failed write (-1) of a 0xFFFFFFFF-byte buffer: the cast `(uint32_t)-1`
      equals the length, so the source reports success. */
  lemma {:induction false} FailedWriteAccepted(h: ProcessHandles)
    requires h.stdin != 0
    ensures h.WriteStdinAsWritten(0xFFFF_FFFF, -1) && !h.WriteStdin(0xFFFF_FFFF, -1)
  {
  }

  // ------------------------------------------------------------------
  // The monitor loop of run()
  // ------------------------------------------------------------------

  /** One pass of the monitor loop as the platform answers it: whether the
      process is still running, whether both pipe-drainer threads are, the stop
      flag, and what the two drainers hand over after the 10 ms sleep. */
  datatype MonitorTick = MonitorTick(
    processRunning: bool,
    readersRunning: bool,
    stop: bool,
    stdoutData: seq<bv8>,
    stderrData: seq<bv8>)

  /** Why the monitor loop ended. A run of ticks that ends is read as the process
      having exited. */
  datatype MonitorExit = ProcessEnded | ReaderDied | Stopped

  /** The stdout bytes a run of passes collects, in order. */
  function StdoutOf(ticks: seq<MonitorTick>): seq<bv8> {
    if ticks == [] then [] else StdoutOf(ticks[..|ticks| - 1]) + ticks[|ticks| - 1].stdoutData
  }

  /** How a monitor loop over `ticks` can end after `passes` full passes: every
      full pass saw the process and both drainers running and no stop request;
      the pass that ended it (if any) is the reason given by `exit`. */
  predicate MonitorEnded(pid: nat, ticks: seq<MonitorTick>, exit: MonitorExit, passes: nat) {
    && passes <= |ticks|
    && (forall k | 0 <= k < passes ::
          ticks[k].processRunning && ticks[k].readersRunning && !ticks[k].stop)
    && (pid == 0 ==> passes == 0 && exit == ProcessEnded)
    && (exit == ProcessEnded ==> passes == |ticks| || !ticks[passes].processRunning || pid == 0)
    && (exit == ReaderDied ==>
          pid != 0 && passes < |ticks| && ticks[passes].processRunning && !ticks[passes].readersRunning)
    && (exit == Stopped ==>
          pid != 0 && passes < |ticks| && ticks[passes].processRunning
          && ticks[passes].readersRunning && ticks[passes].stop)
  }

  /** The monitor loop shared by the four `run` methods: while the process runs,
      stop at a dead drainer, ask for termination when the stop flag is set, and
      otherwise collect stdout (only the probe keeps it). */
  method Monitor(pid: nat, ticks: seq<MonitorTick>, collectStdout: bool)
    returns (exit: MonitorExit, passes: nat, stdoutRaw: seq<bv8>, terminate: bool)
    ensures MonitorEnded(pid, ticks, exit, passes)
    ensures terminate <==> exit == Stopped
    ensures stdoutRaw == if collectStdout then StdoutOf(ticks[..passes]) else []
  {
    exit, passes, stdoutRaw, terminate := ProcessEnded, 0, [], false;
    while passes < |ticks| && pid != 0 && ticks[passes].processRunning
      invariant passes <= |ticks|
      invariant forall k | 0 <= k < passes ::
        ticks[k].processRunning && ticks[k].readersRunning && !ticks[k].stop
      invariant pid == 0 ==> passes == 0
      invariant stdoutRaw == if collectStdout then StdoutOf(ticks[..passes]) else []
    {
      var t := ticks[passes];
      if !t.readersRunning {
        exit := ReaderDied;
        return;
      }
      if t.stop {
        exit, terminate := Stopped, true;
        return;
      }
      if collectStdout {
        assert ticks[..passes + 1][..passes] == ticks[..passes];
        stdoutRaw := stdoutRaw + t.stdoutData;
      }
      passes := passes + 1;
    }
  }
}
