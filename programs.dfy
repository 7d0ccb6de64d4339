/** The stimulus programs (EPL scripts): the integrity flashes that
    `measureIntegrity` inserts into a program's stimulus stream, and the
    nested loops with which the checkerboard, tiled-letter and sinusoidal
    grating programs build their stimulus groups before shuffling them.

    The random draws of a program (`r.uuid()`, `r.randi(...)`) come from one
    seeded generator in the order the loops make them; here each draw is an
    oracle indexed by the loop position that makes it. */
module Programs {
  import opened Seqs
  import opened Stimuli
  import Random

  /** JavaScript's `flatten`: the groups' stimuli, group after group. */
  function Flat<T>(groups: seq<seq<T>>): seq<T> {
    if groups == [] then [] else groups[0] + Flat(groups[1..])
  }

  lemma {:induction false} FlatAppend<T>(a: seq<seq<T>>, b: seq<seq<T>>)
    ensures Flat(a + b) == Flat(a) + Flat(b)
  {
    if a != [] {
      assert (a + b)[0] == a[0] && (a + b)[1..] == a[1..] + b;
      FlatAppend(a[1..], b);
      calc {
        Flat(a + b);
        a[0] + Flat(a[1..] + b);
        a[0] + (Flat(a[1..]) + Flat(b));
        Flat(a) + Flat(b);
      }
    } else {
      assert a + b == b;
    }
  }

  /** `f(0) + f(1) + ... + f(n - 1)`: what a loop whose pass `i` appends
      `f(i)` has appended after `n` passes. */
  function Nest<T>(n: nat, f: nat -> seq<T>): seq<T> {
    if n == 0 then [] else Nest(n - 1, f) + f(n - 1)
  }

  /** Passes that each append `m` items append `Mul(n, m)` in `n` passes. */
  lemma {:induction false} NestLength<T>(n: nat, f: nat -> seq<T>, m: nat)
    requires forall i | 0 <= i < n :: |f(i)| == m
    ensures |Nest(n, f)| == Mul(n, m)
  {
    if n > 0 {
      NestLength(n - 1, f, m);
    }
  }

  /** Item `j` of pass `i` sits at `Mul(i, m) + j`. */
  lemma {:induction false} NestAt<T>(n: nat, f: nat -> seq<T>, m: nat, i: nat, j: nat)
    requires forall i' | 0 <= i' < n :: |f(i')| == m
    requires i < n && j < m
    ensures Mul(i, m) + j < |Nest(n, f)| && Nest(n, f)[Mul(i, m) + j] == f(i)[j]
  {
    NestLength(n - 1, f, m);
    NestLength(n, f, m);
    if i < n - 1 {
      NestAt(n - 1, f, m, i, j);
      MulLess(i, n - 1, m);
    }
  }

  /** Every position of the list is item `j` of some pass `i`. */
  lemma {:induction false} NestCovers<T>(n: nat, f: nat -> seq<T>, m: nat, k: nat) returns (i: nat, j: nat)
    requires forall i' | 0 <= i' < n :: |f(i')| == m
    requires k < |Nest(n, f)|
    ensures i < n && j < m && k == Mul(i, m) + j && Nest(n, f)[k] == f(i)[j]
  {
    NestLength(n - 1, f, m);
    if k < Mul(n - 1, m) {
      i, j := NestCovers(n - 1, f, m, k);
    } else {
      i, j := n - 1, k - Mul(n - 1, m);
    }
  }

  /** `f` applied to each item of `s`, in order. */
  function Map<A, B>(f: A -> B, s: seq<A>): seq<B> {
    seq(|s|, k requires 0 <= k < |s| => f(s[k]))
  }

  lemma {:induction false} MapAppend<A, B>(f: A -> B, a: seq<A>, b: seq<A>)
    ensures Map(f, a + b) == Map(f, a) + Map(f, b)
  {
    assert forall k | 0 <= k < |a + b| :: Map(f, a + b)[k] == (Map(f, a) + Map(f, b))[k];
  }

  /** `a * b` as repeated addition: loop counters step through it one
      addition at a time, which keeps products out of loop invariants. */
  function Mul(a: nat, b: nat): nat {
    if a == 0 then 0 else Mul(a - 1, b) + b
  }

  lemma {:induction false} MulIsProduct(a: nat, b: nat)
    ensures Mul(a, b) == a * b
  {
    if a > 0 {
      MulIsProduct(a - 1, b);
    }
  }

  lemma {:induction false} MulLess(i: nat, n: nat, m: nat)
    requires i < n
    ensures Mul(i, m) + m <= Mul(n, m)
  {
    if i < n - 1 {
      MulLess(i, n - 1, m);
    }
  }

  lemma {:induction false} AppendFour<T>(s: seq<T>, a: T, b: T, c: T, d: T)
    ensures s + [a] + [b] + [c] + [d] == s + [a, b, c, d]
  {
  }

  lemma {:induction false} SliceStep<T>(s: seq<T>, n: nat)
    requires n < |s|
    ensures s[..n + 1] == s[..n] + [s[n]]
  {
  }

  // ---------------------------------------------------------------------------
  // measureIntegrity

  const INTEGRITY: string := "integrity"

  /** The default spacing of integrity flashes: every 5 minutes of stimuli. */
  const EVERY: real := 300.0

  /** `{group: r.uuid(), label: "integrity"}`. */
  function IntegrityMeta(group: string): Metadata {
    NoMetadata.(group := Str(group), stimulusLabel := Str(INTEGRITY))
  }

  /** An integrity flash: one second of black, half a second of white, two
      seconds of black, all three sharing one integrity group. */
  function Flash(group: string): seq<Stimulus> {
    [Wait(1.0, IntegrityMeta(group)), Solid(0.5, WHITE, IntegrityMeta(group)), Wait(2.0, IntegrityMeta(group))]
  }

  /** Whether three stimuli are a flash. */
  predicate IsFlash(f: seq<Stimulus>) {
    |f| == 3 && f[0].metadata.group.Str? && f == Flash(f[0].metadata.group.s)
  }

  /** The total lifespan of some stimuli, in seconds. */
  function Duration(stims: seq<Stimulus>): real {
    if stims == [] then 0.0 else stims[0].lifespan + Duration(stims[1..])
  }

  /** Whether each input stimulus gets a flash before it: one not marked
      `block` does once the running total has reached `every`; the total
      then restarts from that stimulus's own lifespan. */
  function Marks(stims: seq<Stimulus>, every: real, elapsed: real): (m: seq<bool>)
    ensures |m| == |stims|
    decreases |stims|
  {
    if stims == [] then []
    else
      var s := stims[0];
      if elapsed >= every && Unblocked(s) then [true] + Marks(stims[1..], every, s.lifespan)
      else [false] + Marks(stims[1..], every, elapsed + s.lifespan)
  }

  /** The output of `measureIntegrity` cut into pieces, one per input
      stimulus: the stimulus alone, or a flash and then the stimulus.
      `elapsed` is the running total of lifespans since the last flash,
      `drawn` the number of uuids drawn so far. */
  function Pieces(stims: seq<Stimulus>, every: real, elapsed: real, uuid: nat -> string, drawn: nat)
    : seq<seq<Stimulus>>
    decreases |stims|
  {
    if stims == [] then []
    else
      var s := stims[0];
      if elapsed >= every && Unblocked(s) then
        [Flash(uuid(drawn)) + [s]] + Pieces(stims[1..], every, s.lifespan, uuid, drawn + 1)
      else
        [[s]] + Pieces(stims[1..], every, elapsed + s.lifespan, uuid, drawn)
  }

  /** Whether a piece carries a flash. */
  predicate Flashed(piece: seq<Stimulus>) {
    |piece| == 4
  }

  /** The output starts with the first input's piece. */
  lemma {:induction false} PiecesStep(stims: seq<Stimulus>, every: real, elapsed: real, uuid: nat -> string, drawn: nat)
    requires stims != []
    ensures var s := stims[0];
      var flash := elapsed >= every && Unblocked(s);
      Flat(Pieces(stims, every, elapsed, uuid, drawn))
      == (if flash then Flash(uuid(drawn)) else []) + [s]
         + Flat(Pieces(stims[1..], every, if flash then s.lifespan else elapsed + s.lifespan, uuid,
                       if flash then drawn + 1 else drawn))
  {
    var s := stims[0];
    var flash := elapsed >= every && Unblocked(s);
    var rest := Pieces(stims[1..], every, if flash then s.lifespan else elapsed + s.lifespan, uuid,
                       if flash then drawn + 1 else drawn);
    var head := if flash then Flash(uuid(drawn)) + [s] else [s];
    assert Pieces(stims, every, elapsed, uuid, drawn) == [head] + rest;
    assert ([head] + rest)[1..] == rest;
  }

  /** `measureIntegrity(stimuli, every)`: yields every stimulus, and before
      a stimulus not marked `block` a flash once `every` seconds of stimuli
      have passed since the last one. The running total starts at `every`. */
  method MeasureIntegrity(stimuli: seq<Stimulus>, every: real, uuid: nat -> string) returns (out: seq<Stimulus>)
    ensures out == Flat(Pieces(stimuli, every, every, uuid, 0))
  {
    out := [];
    var elapsedTime := every;
    var drawn := 0;
    var i := 0;
    while i < |stimuli|
      invariant i <= |stimuli|
      invariant out + Flat(Pieces(stimuli[i..], every, elapsedTime, uuid, drawn))
                == Flat(Pieces(stimuli, every, every, uuid, 0))
    {
      ghost var before := out;
      assert stimuli[i..][1..] == stimuli[i + 1..];
      PiecesStep(stimuli[i..], every, elapsedTime, uuid, drawn);
      var piece;
      piece, elapsedTime, drawn := MeasureOne(stimuli[i], every, elapsedTime, uuid, drawn);
      out := out + piece;
      i := i + 1;
      AppendAssoc(before, piece, Flat(Pieces(stimuli[i..], every, elapsedTime, uuid, drawn)));
    }
  }

  /** One stimulus of `measureIntegrity`'s loop: what it yields for `s`, and
      the running total and uuid count afterwards. */
  method MeasureOne(s: Stimulus, every: real, elapsed: real, uuid: nat -> string, drawn: nat)
    returns (piece: seq<Stimulus>, elapsed': real, drawn': nat)
    ensures var flash := elapsed >= every && Unblocked(s);
      && piece == (if flash then Flash(uuid(drawn)) else []) + [s]
      && elapsed' == (if flash then s.lifespan else elapsed + s.lifespan)
      && drawn' == (if flash then drawn + 1 else drawn)
  {
    piece, elapsed', drawn' := [], elapsed, drawn;
    if elapsed' >= every && Unblocked(s) {
      var integrityMeta := IntegrityMeta(uuid(drawn'));
      drawn' := drawn' + 1;
      piece := piece + [Wait(1.0, integrityMeta), Solid(0.5, WHITE, integrityMeta), Wait(2.0, integrityMeta)];
      elapsed' := 0.0;
    }
    piece := piece + [s];
    elapsed' := elapsed' + s.lifespan;
  }

  /** The first piece, and the pieces of the rest. */
  lemma {:induction false} PiecesHead(stims: seq<Stimulus>, every: real, elapsed: real, uuid: nat -> string, drawn: nat)
    requires stims != []
    ensures var s := stims[0];
      var flash := elapsed >= every && Unblocked(s);
      var p := Pieces(stims, every, elapsed, uuid, drawn);
      && p != []
      && p[0] == (if flash then Flash(uuid(drawn)) + [s] else [s])
      && p[1..] == Pieces(stims[1..], every, if flash then s.lifespan else elapsed + s.lifespan, uuid,
                          if flash then drawn + 1 else drawn)
  {
  }

  /** A piece yields stimulus `s`: `s` alone, or a flash and then `s`, and
      only when `s` is not marked `block`. */
  predicate PieceOf(piece: seq<Stimulus>, s: Stimulus) {
    && (|piece| == 1 || |piece| == 4)
    && piece[|piece| - 1] == s
    && (Flashed(piece) ==> Unblocked(s) && IsFlash(piece[..3]))
  }

  /** Every input stimulus is yielded exactly once and in order, each one
      alone or right after a flash, and only stimuli not marked `block` get
      one. */
  lemma {:induction false} PiecesShape(stims: seq<Stimulus>, every: real, elapsed: real, uuid: nat -> string, drawn: nat)
    ensures var p := Pieces(stims, every, elapsed, uuid, drawn);
      |p| == |stims| && forall k | 0 <= k < |p| :: PieceOf(p[k], stims[k])
    decreases |stims|
  {
    if stims != [] {
      var s := stims[0];
      var flash := elapsed >= every && Unblocked(s);
      var e' := if flash then s.lifespan else elapsed + s.lifespan;
      var d' := if flash then drawn + 1 else drawn;
      PiecesHead(stims, every, elapsed, uuid, drawn);
      PiecesShape(stims[1..], every, e', uuid, d');
      var p := Pieces(stims, every, elapsed, uuid, drawn);
      var rest := Pieces(stims[1..], every, e', uuid, d');
      if flash {
        assert p[0][..3] == Flash(uuid(drawn));
        assert p[0][0].metadata.group == Str(uuid(drawn));
      }
      assert PieceOf(p[0], stims[0]);
      forall k | 1 <= k < |p|
        ensures PieceOf(p[k], stims[k])
      {
        assert p[k] == rest[k - 1] && stims[k] == stims[1..][k - 1];
      }
    }
  }

  /** The flashes are where `Marks` puts them. */
  lemma {:induction false} PiecesMarks(stims: seq<Stimulus>, every: real, elapsed: real, uuid: nat -> string, drawn: nat)
    ensures var p := Pieces(stims, every, elapsed, uuid, drawn);
      && |p| == |stims|
      && forall k | 0 <= k < |p| :: Flashed(p[k]) <==> Marks(stims, every, elapsed)[k]
    decreases |stims|
  {
    if stims != [] {
      var s := stims[0];
      var flash := elapsed >= every && Unblocked(s);
      var e' := if flash then s.lifespan else elapsed + s.lifespan;
      var d' := if flash then drawn + 1 else drawn;
      PiecesHead(stims, every, elapsed, uuid, drawn);
      MarksStep(stims, every, elapsed);
      PiecesMarks(stims[1..], every, e', uuid, d');
      var p := Pieces(stims, every, elapsed, uuid, drawn);
      var m := Marks(stims, every, elapsed);
      assert forall k | 1 <= k < |p| :: p[k] == p[1..][k - 1] && m[k] == m[1..][k - 1];
    }
  }

  /** The first mark, and the marks of the rest. */
  lemma {:induction false} MarksStep(stims: seq<Stimulus>, every: real, elapsed: real)
    requires stims != []
    ensures var s := stims[0];
      var flash := elapsed >= every && Unblocked(s);
      && Marks(stims, every, elapsed)[0] == flash
      && Marks(stims, every, elapsed)[1..] == Marks(stims[1..], every, if flash then s.lifespan else elapsed + s.lifespan)
  {
  }

  lemma {:induction false} DurationStep(stims: seq<Stimulus>, k: nat)
    requires 0 < k <= |stims|
    ensures Duration(stims[..k]) == stims[0].lifespan + Duration(stims[1..][..k - 1])
  {
    assert stims[..k][1..] == stims[1..][..k - 1];
  }

  /** Before the first flash, a stimulus gets one exactly when it is not
      marked `block` and the starting total plus the lifespans before it
      reach `every`. */
  lemma {:induction false} FlashRuleFirst(stims: seq<Stimulus>, every: real, elapsed: real, k: nat)
    requires k < |stims|
    requires forall i | 0 <= i < k :: !Marks(stims, every, elapsed)[i]
    ensures Marks(stims, every, elapsed)[k] <==> Unblocked(stims[k]) && elapsed + Duration(stims[..k]) >= every
    decreases k
  {
    if k > 0 {
      var s := stims[0];
      var m := Marks(stims, every, elapsed);
      MarksStep(stims, every, elapsed);
      var tail := Marks(stims[1..], every, elapsed + s.lifespan);
      assert forall i | 0 <= i < k - 1 :: tail[i] == m[i + 1];
      FlashRuleFirst(stims[1..], every, elapsed + s.lifespan, k - 1);
      DurationStep(stims, k);
    }
  }

  /** The rule after a flash at the first stimulus. */
  lemma {:induction false} FlashRuleAfterHead(stims: seq<Stimulus>, every: real, elapsed: real, k: nat)
    requires 0 < k < |stims|
    requires Marks(stims, every, elapsed)[0] && forall i | 0 < i < k :: !Marks(stims, every, elapsed)[i]
    ensures Marks(stims, every, elapsed)[k] <==> Unblocked(stims[k]) && Duration(stims[..k]) >= every
  {
    var s := stims[0];
    var m := Marks(stims, every, elapsed);
    MarksStep(stims, every, elapsed);
    var tail := Marks(stims[1..], every, s.lifespan);
    assert forall i | 0 <= i < k - 1 :: tail[i] == m[i + 1];
    FlashRuleFirst(stims[1..], every, s.lifespan, k - 1);
    DurationStep(stims, k);
  }

  /** After a flash, the next stimulus to get one is the first not marked
      `block` once the lifespans of the input stimuli since the flashed one
      (included) reach `every`: the flash itself does not count. */
  lemma {:induction false} FlashRuleAfter(stims: seq<Stimulus>, every: real, elapsed: real, j: nat, k: nat)
    requires j < k < |stims|
    requires Marks(stims, every, elapsed)[j] && forall i | j < i < k :: !Marks(stims, every, elapsed)[i]
    ensures Marks(stims, every, elapsed)[k] <==> Unblocked(stims[k]) && Duration(stims[j..k]) >= every
    decreases j
  {
    if j == 0 {
      FlashRuleAfterHead(stims, every, elapsed, k);
      assert stims[j..k] == stims[..k];
    } else {
      assert stims[1..][j - 1..k - 1] == stims[j..k];
      var s := stims[0];
      var flash := elapsed >= every && Unblocked(s);
      var e' := if flash then s.lifespan else elapsed + s.lifespan;
      MarksStep(stims, every, elapsed);
      var m := Marks(stims, every, elapsed);
      var tail := Marks(stims[1..], every, e');
      assert tail == m[1..];
      assert tail[j - 1] && forall i | j - 1 < i < k - 1 :: !tail[i] by {
        forall i | j - 1 < i < k - 1 ensures !tail[i] {
          assert tail[i] == m[i + 1];
        }
      }
      FlashRuleAfter(stims[1..], every, e', j - 1, k - 1);
      assert m[k] == tail[k - 1] && stims[k] == stims[1..][k - 1];
    }
  }

  lemma {:induction false} DurationNonNegative(stims: seq<Stimulus>)
    requires forall i | 0 <= i < |stims| :: stims[i].lifespan >= 0.0
    ensures Duration(stims) >= 0.0
  {
    if stims != [] {
      DurationNonNegative(stims[1..]);
    }
  }

  /** Because the running total starts at `every`, the first stimulus not
      marked `block` always gets a flash (lifespans being non-negative). */
  lemma {:induction false} FirstUnblockedFlashed(stims: seq<Stimulus>, every: real, uuid: nat -> string, k: nat)
    requires k < |stims| && Unblocked(stims[k])
    requires forall i | 0 <= i < k :: !Unblocked(stims[i])
    requires forall i | 0 <= i < |stims| :: stims[i].lifespan >= 0.0
    ensures var p := Pieces(stims, every, every, uuid, 0); |p| == |stims| && Flashed(p[k])
  {
    PiecesShape(stims, every, every, uuid, 0);
    PiecesMarks(stims, every, every, uuid, 0);
    DurationNonNegative(stims[..k]);
    FlashRuleFirst(stims, every, every, k);
  }

  /** Removing the flashes from the output gives back the input. */
  function Unflashed(pieces: seq<seq<Stimulus>>): seq<Stimulus>
    requires forall k | 0 <= k < |pieces| :: |pieces[k]| > 0
  {
    if pieces == [] then [] else [pieces[0][|pieces[0]| - 1]] + Unflashed(pieces[1..])
  }

  lemma {:induction false} UnflashedIsInput(stims: seq<Stimulus>, every: real, elapsed: real,
                                            uuid: nat -> string, drawn: nat)
    ensures var p := Pieces(stims, every, elapsed, uuid, drawn);
      (forall k | 0 <= k < |p| :: |p[k]| > 0) && Unflashed(p) == stims
    decreases |stims|
  {
    PiecesShape(stims, every, elapsed, uuid, drawn);
    if stims != [] {
      var s := stims[0];
      var flash := elapsed >= every && Unblocked(s);
      var e' := if flash then s.lifespan else elapsed + s.lifespan;
      var d' := if flash then drawn + 1 else drawn;
      UnflashedIsInput(stims[1..], every, e', uuid, d');
      assert Pieces(stims, every, elapsed, uuid, drawn)[1..] == Pieces(stims[1..], every, e', uuid, d');
    }
  }

  /** A group of `m` stimuli whose first stimulus is not marked `block` and
      whose others all are: the programs' groups all open with an unblocked
      wait. */
  predicate GroupForm(g: seq<Stimulus>, m: nat) {
    |g| == m > 0 && Unblocked(g[0]) && forall j | 1 <= j < m :: !Unblocked(g[j])
  }

  /** Flattening groups of `m` puts stimulus `j` of group `i` at
      `i * m + j`. */
  lemma {:induction false} FlatGroupsAt<T>(groups: seq<seq<T>>, m: nat, i: nat, j: nat)
    requires forall g | 0 <= g < |groups| :: |groups[g]| == m
    requires i < |groups| && j < m
    ensures |Flat(groups)| == Mul(|groups|, m) && Mul(i, m) + j < Mul(|groups|, m)
    ensures Flat(groups)[Mul(i, m) + j] == groups[i][j]
  {
    MulLess(i, |groups|, m);
    var rest := groups[1..];
    assert Flat(groups) == groups[0] + Flat(rest);
    FlatLength(rest, m);
    if i > 0 {
      FlatGroupsAt(rest, m, i - 1, j);
    }
  }

  lemma {:induction false} FlatLength<T>(groups: seq<seq<T>>, m: nat)
    requires forall g | 0 <= g < |groups| :: |groups[g]| == m
    ensures |Flat(groups)| == Mul(|groups|, m)
  {
    if groups != [] {
      FlatLength(groups[1..], m);
    }
  }

  /** Flashes only ever precede the first stimulus of a group. */
  lemma {:induction false} FlashesAtGroupStarts(groups: seq<seq<Stimulus>>, m: nat, every: real, uuid: nat -> string, i: nat, j: nat)
    requires forall g | 0 <= g < |groups| :: GroupForm(groups[g], m)
    requires i < |groups| && 0 < j < m
    ensures var p := Pieces(Flat(groups), every, every, uuid, 0);
      |p| == Mul(|groups|, m) && Mul(i, m) + j < |p| && !Flashed(p[Mul(i, m) + j])
  {
    FlatGroupsAt(groups, m, i, j);
    PiecesShape(Flat(groups), every, every, uuid, 0);
    assert !Unblocked(Flat(groups)[Mul(i, m) + j]);
  }

  // ---------------------------------------------------------------------------
  // checkerboard.js

  /** The two checkerboard classes; the program only ever passes 'A' or 'B'. */
  datatype CheckerClass = A | B

  const CLASS_A: string := "A"
  const CLASS_B: string := "B"
  const SAME: string := "SAME"
  const DIFFERENT: string := "DIFFERENT"

  /** The class as the metadata stores it. */
  function ClassName(c: CheckerClass): string {
    if c == A then CLASS_A else CLASS_B
  }

  const CLASS1: seq<CheckerClass> := [A, A, B, B]
  const CLASS2: seq<CheckerClass> := [B, A, B, A]

  /** Foreground and background of a checkerboard of class `c`. */
  function Colors(c: CheckerClass): (string, string) {
    if c == A then (WHITE, BLACK) else (BLACK, WHITE)
  }

  /** `checkerboard_group(class1, class2, duration, size, cohort)`, with the
      group id `id` and the closing wait's lifespan `after` that it draws.
      `angle` is the program's constant `PI/4`. The stimuli are spelled out
      field by field: they are the values `Wait` and `Checkerboard` build
      (`CheckerboardGroupShape` states it for the opening wait). */
  function CheckerboardGroup(class1: CheckerClass, class2: CheckerClass, duration: real, size: real, cohort: string,
                             id: string, after: real, angle: real): seq<Stimulus>
  {
    var color1 := Colors(class1);
    var color2 := Colors(class2);
    var target := Str(if class1 == class2 then SAME else DIFFERENT);
    var group := Str(id);
    [Stimulus(WAIT_TYPE, 1.0, BLACK, Metadata(group, Undefined, Undefined, Undefined, Undefined, Undefined), Plain),
     Stimulus(CHECKERBOARD_TYPE, duration, color1.1,
              Metadata(group, Str(cohort), Flag(true), Str(ClassName(class1)), target, Undefined),
              CheckerboardShape(color1.0, color1.1, size, angle)),
     Stimulus(CHECKERBOARD_TYPE, duration, color2.1,
              Metadata(group, Str(cohort), Flag(true), Str(ClassName(class2)), target, Undefined),
              CheckerboardShape(color2.0, color2.1, size, angle)),
     Stimulus(WAIT_TYPE, after, BLACK, Metadata(group, Undefined, Flag(true), Undefined, Undefined, Undefined), Plain)]
  }

  /** A group is a wait, two checkerboards and a wait, all in one group; the
      target is SAME exactly when the classes agree, class A is white on
      black and class B black on white, and only the opening wait may be
      preceded by a flash. */
  lemma {:induction false} CheckerboardGroupShape(class1: CheckerClass, class2: CheckerClass, duration: real, size: real, cohort: string,
                               id: string, after: real, angle: real)
    ensures var g := CheckerboardGroup(class1, class2, duration, size, cohort, id, after, angle);
      && |g| == 4 && (forall k | 0 <= k < 4 :: g[k].metadata.group == Str(id))
      && g[0] == Wait(1.0, NoMetadata.(group := Str(id))) && g[3].stimulusType == WAIT_TYPE && g[3].lifespan == after
      && Unblocked(g[0]) && !Unblocked(g[1]) && !Unblocked(g[2]) && !Unblocked(g[3])
      && g[1].stimulusType == CHECKERBOARD_TYPE && g[2].stimulusType == CHECKERBOARD_TYPE
      && g[1].lifespan == duration && g[2].lifespan == duration
      && g[1].shape.CheckerboardShape? && g[2].shape.CheckerboardShape?
      && g[1].shape.size == size && g[2].shape.size == size && g[1].shape.angle == angle
      && (class1 == A ==> g[1].shape.color == WHITE && g[1].backgroundColor == BLACK)
      && (class1 == B ==> g[1].shape.color == BLACK && g[1].backgroundColor == WHITE)
      && (class2 == A ==> g[2].shape.color == WHITE && g[2].backgroundColor == BLACK)
      && (class2 == B ==> g[2].shape.color == BLACK && g[2].backgroundColor == WHITE)
      && g[1].metadata.stimulusClass == Str(ClassName(class1)) && g[2].metadata.stimulusClass == Str(ClassName(class2))
      && g[1].metadata.cohort == Str(cohort) && g[2].metadata.cohort == Str(cohort)
      && g[1].metadata.target == g[2].metadata.target
      && (g[1].metadata.target == Str(SAME) <==> class1 == class2)
  {
  }

  /** The program's parameters, and its draws, each indexed by the loop
      position that makes it: the cohort of repetition `i` at size `si` and
      duration `di`, and the id and closing-wait lifespan of its group `c`
      (0 to 3 for AB, AA, BB, BA). */
  datatype CheckerboardParams = CheckerboardParams(
    sizes: seq<real>, durations: seq<real>, repetitions: nat, angle: real,
    cohort: (nat, nat, nat) -> string, id: (nat, nat, nat, nat) -> string, after: (nat, nat, nat, nat) -> real)

  /** What pass `i` of the repetition loop at size `si` and duration `di`
      appends: group `c` is the class pair `CLASS1[c]`, `CLASS2[c]` (AB,
      AA, BB, BA), all four under one fresh cohort (nothing outside the
      loops' ranges). */
  function CheckerboardPass(p: CheckerboardParams, si: nat, di: nat, i: nat): seq<seq<Stimulus>> {
    if si < |p.sizes| && di < |p.durations| then
      seq(4, c requires 0 <= c < 4 =>
        CheckerboardGroup(CLASS1[c], CLASS2[c], p.durations[di], p.sizes[si], p.cohort(si, di, i),
                          p.id(si, di, i, c), p.after(si, di, i, c), p.angle))
    else
      []
  }

  function CheckerboardPassStep(p: CheckerboardParams, si: nat, di: nat): nat -> seq<seq<Stimulus>> {
    (i: nat) => CheckerboardPass(p, si, di, i)
  }

  /** What the first `n` passes of the repetition loop at size `si` and
      duration `di` append. */
  function CheckerboardRepetitionLoop(p: CheckerboardParams, si: nat, di: nat, n: nat): seq<seq<Stimulus>> {
    Nest(n, CheckerboardPassStep(p, si, di))
  }

  function CheckerboardRepetitionStep(p: CheckerboardParams, si: nat): nat -> seq<seq<Stimulus>> {
    (di: nat) => CheckerboardRepetitionLoop(p, si, di, p.repetitions)
  }

  /** What the first `n` passes of the duration loop at size `si` append. */
  function CheckerboardDurationLoop(p: CheckerboardParams, si: nat, n: nat): seq<seq<Stimulus>> {
    Nest(n, CheckerboardRepetitionStep(p, si))
  }

  function CheckerboardDurationStep(p: CheckerboardParams): nat -> seq<seq<Stimulus>> {
    (si: nat) => CheckerboardDurationLoop(p, si, |p.durations|)
  }

  /** What the first `n` passes of the size loop append. */
  function CheckerboardSizeLoop(p: CheckerboardParams, n: nat): seq<seq<Stimulus>> {
    Nest(n, CheckerboardDurationStep(p))
  }

  /** The groups the program builds before shuffling them. */
  function CheckerboardGroups(p: CheckerboardParams): seq<seq<Stimulus>> {
    CheckerboardSizeLoop(p, |p.sizes|)
  }

  /** How many groups a repetition loop, a duration loop and the whole
      program append. */
  function CheckerboardRepetitionSpan(p: CheckerboardParams): nat {
    Mul(p.repetitions, 4)
  }

  function CheckerboardDurationSpan(p: CheckerboardParams): nat {
    Mul(|p.durations|, CheckerboardRepetitionSpan(p))
  }

  /** Where group `c` of repetition `i` at size `si` and duration `di`
      lands in the list. */
  function CheckerboardIndex(p: CheckerboardParams, si: nat, di: nat, i: nat, c: nat): nat {
    Mul(si, CheckerboardDurationSpan(p)) + (Mul(di, CheckerboardRepetitionSpan(p)) + (Mul(i, 4) + c))
  }

  /** A repetition loop appends four groups per pass. */
  lemma {:induction false} CheckerboardRepetitionLength(p: CheckerboardParams, si: nat, di: nat)
    requires si < |p.sizes| && di < |p.durations|
    ensures forall i: nat :: |CheckerboardPassStep(p, si, di)(i)| == 4
    ensures |CheckerboardRepetitionLoop(p, si, di, p.repetitions)| == CheckerboardRepetitionSpan(p)
  {
    forall i: nat
      ensures |CheckerboardPassStep(p, si, di)(i)| == 4
    {
      assert CheckerboardPassStep(p, si, di)(i) == CheckerboardPass(p, si, di, i);
    }
    NestLength(p.repetitions, CheckerboardPassStep(p, si, di), 4);
  }

  /** A duration loop appends a whole repetition loop per pass. */
  lemma {:induction false} CheckerboardDurationLength(p: CheckerboardParams, si: nat)
    requires si < |p.sizes|
    ensures forall di: nat | di < |p.durations| :: |CheckerboardRepetitionStep(p, si)(di)| == CheckerboardRepetitionSpan(p)
    ensures |CheckerboardDurationLoop(p, si, |p.durations|)| == CheckerboardDurationSpan(p)
  {
    forall di: nat | di < |p.durations|
      ensures |CheckerboardRepetitionStep(p, si)(di)| == CheckerboardRepetitionSpan(p)
    {
      CheckerboardRepetitionLength(p, si, di);
      assert CheckerboardRepetitionStep(p, si)(di) == CheckerboardRepetitionLoop(p, si, di, p.repetitions);
    }
    NestLength(|p.durations|, CheckerboardRepetitionStep(p, si), CheckerboardRepetitionSpan(p));
  }

  /** The size loop appends a whole duration loop per pass. */
  lemma {:induction false} CheckerboardSizeLength(p: CheckerboardParams)
    ensures forall si: nat | si < |p.sizes| :: |CheckerboardDurationStep(p)(si)| == CheckerboardDurationSpan(p)
    ensures |CheckerboardGroups(p)| == Mul(|p.sizes|, CheckerboardDurationSpan(p))
  {
    forall si: nat | si < |p.sizes|
      ensures |CheckerboardDurationStep(p)(si)| == CheckerboardDurationSpan(p)
    {
      CheckerboardDurationLength(p, si);
      assert CheckerboardDurationStep(p)(si) == CheckerboardDurationLoop(p, si, |p.durations|);
    }
    NestLength(|p.sizes|, CheckerboardDurationStep(p), CheckerboardDurationSpan(p));
  }

  /** The program makes four groups for every size, duration and
      repetition. */
  lemma {:induction false} CheckerboardCount(p: CheckerboardParams)
    ensures |CheckerboardGroups(p)| == |p.sizes| * (|p.durations| * (p.repetitions * 4))
  {
    CheckerboardSizeLength(p);
    MulIsProduct(p.repetitions, 4);
    MulIsProduct(|p.durations|, CheckerboardRepetitionSpan(p));
    MulIsProduct(|p.sizes|, CheckerboardDurationSpan(p));
  }

  /** Group `c` of pass `i` of the repetition loop sits at `Mul(i, 4) + c`
      of what the loop appends. */
  lemma {:induction false} CheckerboardPassAt(p: CheckerboardParams, si: nat, di: nat, i: nat, c: nat)
    requires si < |p.sizes| && di < |p.durations| && i < p.repetitions && c < 4
    ensures var g := CheckerboardRepetitionLoop(p, si, di, p.repetitions);
      && |g| == CheckerboardRepetitionSpan(p) && Mul(i, 4) + c < |g|
      && g[Mul(i, 4) + c]
         == CheckerboardGroup(CLASS1[c], CLASS2[c], p.durations[di], p.sizes[si], p.cohort(si, di, i),
                              p.id(si, di, i, c), p.after(si, di, i, c), p.angle)
  {
    CheckerboardRepetitionLength(p, si, di);
    NestAt(p.repetitions, CheckerboardPassStep(p, si, di), 4, i, c);
    assert CheckerboardPassStep(p, si, di)(i) == CheckerboardPass(p, si, di, i);
  }

  /** Group `j` of the repetition loop at duration `di` sits at
      `Mul(di, CheckerboardRepetitionSpan(p)) + j` of what the duration loop
      appends. */
  lemma {:induction false} CheckerboardRepetitionAt(p: CheckerboardParams, si: nat, di: nat, j: nat)
    requires si < |p.sizes| && di < |p.durations| && j < CheckerboardRepetitionSpan(p)
    ensures var g, k := CheckerboardDurationLoop(p, si, |p.durations|), Mul(di, CheckerboardRepetitionSpan(p)) + j;
      && |CheckerboardRepetitionLoop(p, si, di, p.repetitions)| == CheckerboardRepetitionSpan(p)
      && |g| == CheckerboardDurationSpan(p) && k < |g|
      && g[k] == CheckerboardRepetitionLoop(p, si, di, p.repetitions)[j]
  {
    CheckerboardRepetitionLength(p, si, di);
    CheckerboardDurationLength(p, si);
    NestAt(|p.durations|, CheckerboardRepetitionStep(p, si), CheckerboardRepetitionSpan(p), di, j);
  }

  /** Group `j` of the duration loop at size `si` sits at
      `Mul(si, CheckerboardDurationSpan(p)) + j` of the list. */
  lemma {:induction false} CheckerboardDurationAt(p: CheckerboardParams, si: nat, j: nat)
    requires si < |p.sizes| && j < CheckerboardDurationSpan(p)
    ensures var g, k := CheckerboardGroups(p), Mul(si, CheckerboardDurationSpan(p)) + j;
      && |CheckerboardDurationLoop(p, si, |p.durations|)| == CheckerboardDurationSpan(p)
      && k < |g| && g[k] == CheckerboardDurationLoop(p, si, |p.durations|)[j]
  {
    CheckerboardDurationLength(p, si);
    CheckerboardSizeLength(p);
    NestAt(|p.sizes|, CheckerboardDurationStep(p), CheckerboardDurationSpan(p), si, j);
  }

  /** Group `c` of repetition `i` at size `si` and duration `di` sits at
      `CheckerboardIndex(p, si, di, i, c)`: the class pair `c` stands for,
      that repetition's cohort, and its own id and closing wait. */
  lemma {:induction false} CheckerboardLayout(p: CheckerboardParams, si: nat, di: nat, i: nat, c: nat)
    requires si < |p.sizes| && di < |p.durations| && i < p.repetitions && c < 4
    ensures var g, k := CheckerboardGroups(p), CheckerboardIndex(p, si, di, i, c);
      && k < |g|
      && g[k] == CheckerboardGroup(CLASS1[c], CLASS2[c], p.durations[di], p.sizes[si], p.cohort(si, di, i),
                                   p.id(si, di, i, c), p.after(si, di, i, c), p.angle)
  {
    CheckerboardPassAt(p, si, di, i, c);
    CheckerboardRepetitionAt(p, si, di, Mul(i, 4) + c);
    CheckerboardDurationAt(p, si, Mul(di, CheckerboardRepetitionSpan(p)) + (Mul(i, 4) + c));
  }

  /** Conversely every group of the list is group `c` of some repetition
      `i` at some size `si` and duration `di`: the list holds nothing else. */
  lemma {:induction false} CheckerboardCovers(p: CheckerboardParams, k: nat) returns (si: nat, di: nat, i: nat, c: nat)
    requires k < |CheckerboardGroups(p)|
    ensures si < |p.sizes| && di < |p.durations| && i < p.repetitions && c < 4
    ensures k == CheckerboardIndex(p, si, di, i, c)
  {
    var j, j';
    CheckerboardSizeLength(p);
    si, j := NestCovers(|p.sizes|, CheckerboardDurationStep(p), CheckerboardDurationSpan(p), k);
    CheckerboardDurationLength(p, si);
    di, j' := NestCovers(|p.durations|, CheckerboardRepetitionStep(p, si), CheckerboardRepetitionSpan(p), j);
    CheckerboardRepetitionLength(p, si, di);
    i, c := NestCovers(p.repetitions, CheckerboardPassStep(p, si, di), 4, j');
  }

  /** A pass of the repetition loop appends AB, AA, BB and BA. */
  lemma {:induction false} CheckerboardRepetitionPush(p: CheckerboardParams, si: nat, di: nat, i: nat)
    requires si < |p.sizes| && di < |p.durations|
    ensures var duration, size, cohort := p.durations[di], p.sizes[si], p.cohort(si, di, i);
      CheckerboardRepetitionLoop(p, si, di, i + 1)
      == CheckerboardRepetitionLoop(p, si, di, i)
         + [CheckerboardGroup(A, B, duration, size, cohort, p.id(si, di, i, 0), p.after(si, di, i, 0), p.angle),
            CheckerboardGroup(A, A, duration, size, cohort, p.id(si, di, i, 1), p.after(si, di, i, 1), p.angle),
            CheckerboardGroup(B, B, duration, size, cohort, p.id(si, di, i, 2), p.after(si, di, i, 2), p.angle),
            CheckerboardGroup(B, A, duration, size, cohort, p.id(si, di, i, 3), p.after(si, di, i, 3), p.angle)]
  {
    assert CheckerboardPassStep(p, si, di)(i) == CheckerboardPass(p, si, di, i);
    assert CLASS1[0] == A && CLASS2[0] == B && CLASS1[1] == A && CLASS2[1] == A;
    assert CLASS1[2] == B && CLASS2[2] == B && CLASS1[3] == B && CLASS2[3] == A;
  }

  /** A pass of the duration loop appends a whole repetition loop. */
  lemma {:induction false} CheckerboardDurationPush(p: CheckerboardParams, si: nat, di: nat)
    ensures CheckerboardDurationLoop(p, si, di + 1)
         == CheckerboardDurationLoop(p, si, di) + CheckerboardRepetitionLoop(p, si, di, p.repetitions)
  {
    assert CheckerboardRepetitionStep(p, si)(di) == CheckerboardRepetitionLoop(p, si, di, p.repetitions);
  }

  /** A pass of the size loop appends a whole duration loop. */
  lemma {:induction false} CheckerboardSizePush(p: CheckerboardParams, si: nat)
    ensures CheckerboardSizeLoop(p, si + 1) == CheckerboardSizeLoop(p, si) + CheckerboardDurationLoop(p, si, |p.durations|)
  {
    assert CheckerboardDurationStep(p)(si) == CheckerboardDurationLoop(p, si, |p.durations|);
  }

  /** The top-level loops: for each size, each duration and each repetition,
      a fresh cohort and the groups AB, AA, BB and BA, in that order. */
  method BuildCheckerboard(p: CheckerboardParams) returns (stimuli: seq<seq<Stimulus>>)
    ensures stimuli == CheckerboardGroups(p)
  {
    stimuli := [];
    for si := 0 to |p.sizes|
      invariant stimuli == CheckerboardSizeLoop(p, si)
    {
      ghost var sizesBefore := stimuli;
      for di := 0 to |p.durations|
        invariant stimuli == sizesBefore + CheckerboardDurationLoop(p, si, di)
      {
        ghost var durationsBefore := stimuli;
        for i := 0 to p.repetitions
          invariant stimuli == durationsBefore + CheckerboardRepetitionLoop(p, si, di, i)
        {
          var cohort := p.cohort(si, di, i);
          var duration, size := p.durations[di], p.sizes[si];
          var ab := CheckerboardGroup(A, B, duration, size, cohort, p.id(si, di, i, 0), p.after(si, di, i, 0), p.angle);
          var aa := CheckerboardGroup(A, A, duration, size, cohort, p.id(si, di, i, 1), p.after(si, di, i, 1), p.angle);
          var bb := CheckerboardGroup(B, B, duration, size, cohort, p.id(si, di, i, 2), p.after(si, di, i, 2), p.angle);
          var ba := CheckerboardGroup(B, A, duration, size, cohort, p.id(si, di, i, 3), p.after(si, di, i, 3), p.angle);
          CheckerboardRepetitionPush(p, si, di, i);
          AppendAssoc(durationsBefore, CheckerboardRepetitionLoop(p, si, di, i), [ab, aa, bb, ba]);
          AppendFour(stimuli, ab, aa, bb, ba);
          stimuli := stimuli + [ab];
          stimuli := stimuli + [aa];
          stimuli := stimuli + [bb];
          stimuli := stimuli + [ba];
        }
        CheckerboardDurationPush(p, si, di);
        AppendAssoc(sizesBefore, CheckerboardDurationLoop(p, si, di), CheckerboardRepetitionLoop(p, si, di, p.repetitions));
      }
      CheckerboardSizePush(p, si);
    }
  }

  /** Every group is an unblocked wait, two blocked checkerboards of one
      size and duration whose classes are `CLASS1[c]` and `CLASS2[c]`, and
      a blocked closing wait, all four in one group. */
  lemma {:induction false} CheckerboardGroupsShape(p: CheckerboardParams, k: nat) returns (si: nat, di: nat, c: nat)
    requires k < |CheckerboardGroups(p)|
    ensures si < |p.sizes| && di < |p.durations| && c < 4
    ensures var g := CheckerboardGroups(p)[k];
      && GroupForm(g, 4)
      && (forall j | 0 <= j < 4 :: g[j].metadata.group == g[0].metadata.group)
      && g[1].shape.CheckerboardShape? && g[2].shape.CheckerboardShape?
      && g[1].lifespan == g[2].lifespan == p.durations[di]
      && g[1].shape.size == g[2].shape.size == p.sizes[si]
      && g[1].metadata.stimulusClass == Str(ClassName(CLASS1[c]))
      && g[2].metadata.stimulusClass == Str(ClassName(CLASS2[c]))
      && (g[1].metadata.target == Str(SAME) <==> CLASS1[c] == CLASS2[c])
  {
    var i;
    si, di, i, c := CheckerboardCovers(p, k);
    CheckerboardLayout(p, si, di, i, c);
    CheckerboardGroupShape(CLASS1[c], CLASS2[c], p.durations[di], p.sizes[si], p.cohort(si, di, i),
                           p.id(si, di, i, c), p.after(si, di, i, c), p.angle);
  }

  // ---------------------------------------------------------------------------
  // letters-tiled.js

  /** The program's letters. */
  const LETTERS: seq<string> := ["C", "D", "H", "K", "N", "O", "R", "S", "V", "Z"]

  /** The program's parameters (durations [0.5], sizes [250, 200, 160, 125],
      100 repetitions and `LETTERS` as written), and its draws, each indexed
      by the loop position that makes it: the cohort of repetition `i` at
      duration `di` and size `si`, and the group id and closing-wait
      lifespan (`r.randi(30, 45) / 60`) of its letter `li`. */
  datatype LettersParams = LettersParams(
    durations: seq<real>, sizes: seq<real>, repetitions: nat, letters: seq<string>,
    cohort: (nat, nat, nat) -> string, id: (nat, nat, nat, nat) -> string, after: (nat, nat, nat, nat) -> real)

  /** The triple pushed for one letter: an opening wait, the tiled letter
      (white on black, padding equal to its size, angle 0) and a closing
      wait, all in group `id`; the letter and the closing wait are marked
      `block`. The stimuli are spelled out field by field: they are the
      values `Wait` and `TiledLetter` build. */
  function LetterTriple(duration: real, size: real, letter: string, cohort: string, id: string, after: real)
    : seq<Stimulus>
  {
    var group := Str(id);
    [Stimulus(WAIT_TYPE, 1.0, BLACK, Metadata(group, Undefined, Undefined, Undefined, Undefined, Undefined), Plain),
     Stimulus(TILED_LETTER_TYPE, duration, BLACK,
              Metadata(group, Str(cohort), Flag(true), Undefined, Undefined, Undefined),
              TiledLetterShape(letter, size, size, WHITE, 0.0)),
     Stimulus(WAIT_TYPE, after, BLACK, Metadata(group, Undefined, Flag(true), Undefined, Undefined, Undefined), Plain)]
  }

  /** What pass `i` of the repetition loop at duration `di` and size `si`
      appends: one triple per letter, in the letters' order, under one fresh
      cohort (nothing outside the loops' ranges). */
  function LettersPass(p: LettersParams, di: nat, si: nat, i: nat): seq<seq<Stimulus>> {
    if di < |p.durations| && si < |p.sizes| then
      seq(|p.letters|, li requires 0 <= li < |p.letters| =>
        LetterTriple(p.durations[di], p.sizes[si], p.letters[li], p.cohort(di, si, i), p.id(di, si, i, li),
                     p.after(di, si, i, li)))
    else
      []
  }

  function LettersPassStep(p: LettersParams, di: nat, si: nat): nat -> seq<seq<Stimulus>> {
    (i: nat) => LettersPass(p, di, si, i)
  }

  /** What the first `n` passes of the repetition loop at duration `di` and
      size `si` append. */
  function LettersRepetitionLoop(p: LettersParams, di: nat, si: nat, n: nat): seq<seq<Stimulus>> {
    Nest(n, LettersPassStep(p, di, si))
  }

  function LettersRepetitionStep(p: LettersParams, di: nat): nat -> seq<seq<Stimulus>> {
    (si: nat) => LettersRepetitionLoop(p, di, si, p.repetitions)
  }

  /** What the first `n` passes of the size loop at duration `di` append. */
  function LettersSizeLoop(p: LettersParams, di: nat, n: nat): seq<seq<Stimulus>> {
    Nest(n, LettersRepetitionStep(p, di))
  }

  function LettersSizeStep(p: LettersParams): nat -> seq<seq<Stimulus>> {
    (di: nat) => LettersSizeLoop(p, di, |p.sizes|)
  }

  /** What the first `n` passes of the duration loop append. */
  function LettersDurationLoop(p: LettersParams, n: nat): seq<seq<Stimulus>> {
    Nest(n, LettersSizeStep(p))
  }

  /** The triples the program builds before shuffling them. */
  function LetterTriples(p: LettersParams): seq<seq<Stimulus>> {
    LettersDurationLoop(p, |p.durations|)
  }

  /** How many triples a repetition loop and a size loop append. */
  function LettersRepetitionSpan(p: LettersParams): nat {
    Mul(p.repetitions, |p.letters|)
  }

  function LettersSizeSpan(p: LettersParams): nat {
    Mul(|p.sizes|, LettersRepetitionSpan(p))
  }

  /** Where the triple of letter `li` in repetition `i` at duration `di` and
      size `si` lands in the list. */
  function LetterIndex(p: LettersParams, di: nat, si: nat, i: nat, li: nat): nat {
    Mul(di, LettersSizeSpan(p)) + (Mul(si, LettersRepetitionSpan(p)) + (Mul(i, |p.letters|) + li))
  }

  /** A repetition loop appends one triple per letter per pass. */
  lemma {:induction false} LettersRepetitionLength(p: LettersParams, di: nat, si: nat)
    requires di < |p.durations| && si < |p.sizes|
    ensures forall i: nat :: |LettersPassStep(p, di, si)(i)| == |p.letters|
    ensures |LettersRepetitionLoop(p, di, si, p.repetitions)| == LettersRepetitionSpan(p)
  {
    forall i: nat
      ensures |LettersPassStep(p, di, si)(i)| == |p.letters|
    {
      assert LettersPassStep(p, di, si)(i) == LettersPass(p, di, si, i);
    }
    NestLength(p.repetitions, LettersPassStep(p, di, si), |p.letters|);
  }

  /** A size loop appends a whole repetition loop per pass. */
  lemma {:induction false} LettersSizeLength(p: LettersParams, di: nat)
    requires di < |p.durations|
    ensures forall si: nat | si < |p.sizes| :: |LettersRepetitionStep(p, di)(si)| == LettersRepetitionSpan(p)
    ensures |LettersSizeLoop(p, di, |p.sizes|)| == LettersSizeSpan(p)
  {
    forall si: nat | si < |p.sizes|
      ensures |LettersRepetitionStep(p, di)(si)| == LettersRepetitionSpan(p)
    {
      LettersRepetitionLength(p, di, si);
      assert LettersRepetitionStep(p, di)(si) == LettersRepetitionLoop(p, di, si, p.repetitions);
    }
    NestLength(|p.sizes|, LettersRepetitionStep(p, di), LettersRepetitionSpan(p));
  }

  /** The duration loop appends a whole size loop per pass. */
  lemma {:induction false} LettersDurationLength(p: LettersParams)
    ensures forall di: nat | di < |p.durations| :: |LettersSizeStep(p)(di)| == LettersSizeSpan(p)
    ensures |LetterTriples(p)| == Mul(|p.durations|, LettersSizeSpan(p))
  {
    forall di: nat | di < |p.durations|
      ensures |LettersSizeStep(p)(di)| == LettersSizeSpan(p)
    {
      LettersSizeLength(p, di);
      assert LettersSizeStep(p)(di) == LettersSizeLoop(p, di, |p.sizes|);
    }
    NestLength(|p.durations|, LettersSizeStep(p), LettersSizeSpan(p));
  }

  /** The program makes one triple for every duration, size, repetition and
      letter. */
  lemma {:induction false} LettersCount(p: LettersParams)
    ensures |LetterTriples(p)| == |p.durations| * (|p.sizes| * (p.repetitions * |p.letters|))
  {
    LettersDurationLength(p);
    MulIsProduct(p.repetitions, |p.letters|);
    MulIsProduct(|p.sizes|, LettersRepetitionSpan(p));
    MulIsProduct(|p.durations|, LettersSizeSpan(p));
  }

  /** The triple of letter `li` sits at `Mul(i, |p.letters|) + li` of what
      the repetition loop appends. */
  lemma {:induction false} LettersPassAt(p: LettersParams, di: nat, si: nat, i: nat, li: nat)
    requires di < |p.durations| && si < |p.sizes| && i < p.repetitions && li < |p.letters|
    ensures var g := LettersRepetitionLoop(p, di, si, p.repetitions);
      && |g| == LettersRepetitionSpan(p) && Mul(i, |p.letters|) + li < |g|
      && g[Mul(i, |p.letters|) + li]
         == LetterTriple(p.durations[di], p.sizes[si], p.letters[li], p.cohort(di, si, i), p.id(di, si, i, li),
                         p.after(di, si, i, li))
  {
    LettersRepetitionLength(p, di, si);
    NestAt(p.repetitions, LettersPassStep(p, di, si), |p.letters|, i, li);
    assert LettersPassStep(p, di, si)(i) == LettersPass(p, di, si, i);
  }

  /** Triple `j` of the repetition loop at size `si` sits at
      `Mul(si, LettersRepetitionSpan(p)) + j` of what the size loop
      appends. */
  lemma {:induction false} LettersRepetitionAt(p: LettersParams, di: nat, si: nat, j: nat)
    requires di < |p.durations| && si < |p.sizes| && j < LettersRepetitionSpan(p)
    ensures var g, k := LettersSizeLoop(p, di, |p.sizes|), Mul(si, LettersRepetitionSpan(p)) + j;
      && |LettersRepetitionLoop(p, di, si, p.repetitions)| == LettersRepetitionSpan(p)
      && |g| == LettersSizeSpan(p) && k < |g|
      && g[k] == LettersRepetitionLoop(p, di, si, p.repetitions)[j]
  {
    LettersRepetitionLength(p, di, si);
    LettersSizeLength(p, di);
    NestAt(|p.sizes|, LettersRepetitionStep(p, di), LettersRepetitionSpan(p), si, j);
  }

  /** Triple `j` of the size loop at duration `di` sits at
      `Mul(di, LettersSizeSpan(p)) + j` of the list. */
  lemma {:induction false} LettersSizeAt(p: LettersParams, di: nat, j: nat)
    requires di < |p.durations| && j < LettersSizeSpan(p)
    ensures var g, k := LetterTriples(p), Mul(di, LettersSizeSpan(p)) + j;
      && |LettersSizeLoop(p, di, |p.sizes|)| == LettersSizeSpan(p)
      && k < |g| && g[k] == LettersSizeLoop(p, di, |p.sizes|)[j]
  {
    LettersSizeLength(p, di);
    LettersDurationLength(p);
    NestAt(|p.durations|, LettersSizeStep(p), LettersSizeSpan(p), di, j);
  }

  /** The triple of letter `li` in repetition `i` at duration `di` and size
      `si` sits at `LetterIndex(p, di, si, i, li)`. */
  lemma {:induction false} LettersLayout(p: LettersParams, di: nat, si: nat, i: nat, li: nat)
    requires di < |p.durations| && si < |p.sizes| && i < p.repetitions && li < |p.letters|
    ensures var g, k := LetterTriples(p), LetterIndex(p, di, si, i, li);
      && k < |g|
      && g[k] == LetterTriple(p.durations[di], p.sizes[si], p.letters[li], p.cohort(di, si, i),
                              p.id(di, si, i, li), p.after(di, si, i, li))
  {
    LettersPassAt(p, di, si, i, li);
    LettersRepetitionAt(p, di, si, Mul(i, |p.letters|) + li);
    LettersSizeAt(p, di, Mul(si, LettersRepetitionSpan(p)) + (Mul(i, |p.letters|) + li));
  }

  /** Conversely every triple of the list belongs to some duration, size,
      repetition and letter. */
  lemma {:induction false} LettersCover(p: LettersParams, k: nat) returns (di: nat, si: nat, i: nat, li: nat)
    requires k < |LetterTriples(p)|
    ensures di < |p.durations| && si < |p.sizes| && i < p.repetitions && li < |p.letters|
    ensures k == LetterIndex(p, di, si, i, li)
  {
    var j, j';
    LettersDurationLength(p);
    di, j := NestCovers(|p.durations|, LettersSizeStep(p), LettersSizeSpan(p), k);
    LettersSizeLength(p, di);
    si, j' := NestCovers(|p.sizes|, LettersRepetitionStep(p, di), LettersRepetitionSpan(p), j);
    LettersRepetitionLength(p, di, si);
    i, li := NestCovers(p.repetitions, LettersPassStep(p, di, si), |p.letters|, j');
  }

  /** A pass of the letter loop appends the triple of the next letter. */
  lemma {:induction false} LettersLetterPush(p: LettersParams, di: nat, si: nat, i: nat, li: nat)
    requires di < |p.durations| && si < |p.sizes| && li < |p.letters|
    ensures var pass := LettersPass(p, di, si, i);
      && |pass| == |p.letters|
      && pass[..li + 1]
         == pass[..li] + [LetterTriple(p.durations[di], p.sizes[si], p.letters[li], p.cohort(di, si, i),
                                      p.id(di, si, i, li), p.after(di, si, i, li))]
  {
    SliceStep(LettersPass(p, di, si, i), li);
  }

  /** A pass of the repetition loop appends one triple per letter. */
  lemma {:induction false} LettersRepetitionPush(p: LettersParams, di: nat, si: nat, i: nat)
    ensures LettersRepetitionLoop(p, di, si, i + 1) == LettersRepetitionLoop(p, di, si, i) + LettersPass(p, di, si, i)
  {
    assert LettersPassStep(p, di, si)(i) == LettersPass(p, di, si, i);
  }

  /** A pass of the size loop appends a whole repetition loop. */
  lemma {:induction false} LettersSizePush(p: LettersParams, di: nat, si: nat)
    ensures LettersSizeLoop(p, di, si + 1) == LettersSizeLoop(p, di, si) + LettersRepetitionLoop(p, di, si, p.repetitions)
  {
    assert LettersRepetitionStep(p, di)(si) == LettersRepetitionLoop(p, di, si, p.repetitions);
  }

  /** A pass of the duration loop appends a whole size loop. */
  lemma {:induction false} LettersDurationPush(p: LettersParams, di: nat)
    ensures LettersDurationLoop(p, di + 1) == LettersDurationLoop(p, di) + LettersSizeLoop(p, di, |p.sizes|)
  {
    assert LettersSizeStep(p)(di) == LettersSizeLoop(p, di, |p.sizes|);
  }

  /** The four loops: for each duration, each size (padding equal to the
      size), each repetition (a fresh cohort) and each letter, one triple. */
  method BuildLetters(p: LettersParams) returns (stimuli: seq<seq<Stimulus>>)
    ensures stimuli == LetterTriples(p)
  {
    var L := |p.letters|;
    stimuli := [];
    for di := 0 to |p.durations|
      invariant stimuli == LettersDurationLoop(p, di)
    {
      ghost var durationsBefore := stimuli;
      var duration := p.durations[di];
      for si := 0 to |p.sizes|
        invariant stimuli == durationsBefore + LettersSizeLoop(p, di, si)
      {
        ghost var sizesBefore := stimuli;
        var size := p.sizes[si];
        var pad := size;
        for i := 0 to p.repetitions
          invariant stimuli == sizesBefore + LettersRepetitionLoop(p, di, si, i)
        {
          ghost var repetitionsBefore := stimuli;
          ghost var pass := LettersPass(p, di, si, i);
          var cohort := p.cohort(di, si, i);
          for li := 0 to L
            invariant |pass| == L && stimuli == repetitionsBefore + pass[..li]
          {
            var letter := p.letters[li];
            var id := p.id(di, si, i, li);
            var l := TiledLetter(duration, BLACK, letter, size, pad, WHITE, 0.0,
                                 NoMetadata.(group := Str(id), cohort := Str(cohort), block := Flag(true)));
            var before := Wait(1.0, NoMetadata.(group := Str(id)));
            var after := Wait(p.after(di, si, i, li), NoMetadata.(group := Str(id), block := Flag(true)));
            LettersLetterPush(p, di, si, i, li);
            AppendAssoc(repetitionsBefore, pass[..li], [[before, l, after]]);
            stimuli := stimuli + [[before, l, after]];
          }
          assert pass[..L] == pass;
          LettersRepetitionPush(p, di, si, i);
          AppendAssoc(sizesBefore, LettersRepetitionLoop(p, di, si, i), pass);
        }
        LettersSizePush(p, di, si);
        AppendAssoc(durationsBefore, LettersSizeLoop(p, di, si), LettersRepetitionLoop(p, di, si, p.repetitions));
      }
      LettersDurationPush(p, di);
    }
  }

  /** Every triple is an unblocked wait, a tiled letter of the program's
      letters, white on black, with padding equal to its size, and a
      blocked closing wait, all three in one group. */
  lemma {:induction false} LetterTriplesShape(p: LettersParams, k: nat) returns (di: nat, si: nat, li: nat)
    requires k < |LetterTriples(p)|
    ensures di < |p.durations| && si < |p.sizes| && li < |p.letters|
    ensures var g := LetterTriples(p)[k];
      && GroupForm(g, 3)
      && g[0].metadata.group == g[1].metadata.group == g[2].metadata.group
      && g[0].stimulusType == WAIT_TYPE && g[0].lifespan == 1.0 && g[2].stimulusType == WAIT_TYPE
      && g[1].stimulusType == TILED_LETTER_TYPE && g[1].lifespan == p.durations[di]
      && g[1].shape.TiledLetterShape? && g[1].shape.letter == p.letters[li]
      && g[1].shape.size == g[1].shape.padding == p.sizes[si]
      && g[1].shape.color == WHITE && g[1].backgroundColor == BLACK
  {
    var i;
    di, si, i, li := LettersCover(p, k);
    LettersLayout(p, di, si, i, li);
  }

  // ---------------------------------------------------------------------------
  // grating-sinusoidal-durations.js

  const FORWARD: string := "FORWARD"
  const REVERSE: string := "REVERSE"

  /** The program's parameters (8 sizes from `logMARtoPx`, angles [PI/4],
      speeds [200], durations [0.5, 1, 1.5] and 50 repetitions as written)
      and its draws, indexed by the repetition `t` (counted over all the
      loops) that makes them: the cohort, and for direction `c` (0 forward,
      1 reverse) the group id and the closing-wait lifespan
      (`r.randi(60, 75) / 60`). `inverseAngle` is `(angle + PI) % (2 * PI)`
      in floating point. */
  datatype GratingParams = GratingParams(
    sizes: seq<real>, angles: seq<real>, speeds: seq<real>, durations: seq<real>, repetitions: nat,
    cohort: nat -> string, id: (nat, nat) -> string, after: (nat, nat) -> real, inverseAngle: real -> real)

  /** The value of the program's `id` variable before repetition `t`:
      unset before the first, then the reverse group id of repetition
      `t - 1`. */
  function PreviousId(p: GratingParams, t: nat): MetaValue {
    if t == 0 then Undefined else Str(p.id(t - 1, 1))
  }

  /** The opening wait of both triples of repetition `t`: it is built before
      `id` is reassigned, so it is tagged with the previous id (the value
      `Wait(1.0, {group: id})` builds, spelled out). */
  function GratingBefore(p: GratingParams, t: nat): Stimulus {
    Stimulus(WAIT_TYPE, 1.0, BLACK, Metadata(PreviousId(p, t), Undefined, Undefined, Undefined, Undefined, Undefined), Plain)
  }

  /** A triple: the given opening wait, a grating of class `direction` (black
      background, white bars) in group `id`, and a closing wait in the same
      group; the grating and the closing wait are marked `block`. The
      stimuli are spelled out field by field: they are the values
      `SinusoidalGrating` and `Wait` build. */
  function GratingTriple(before: Stimulus, duration: real, speed: real, size: real, angle: real, cohort: string,
                         direction: string, id: string, after: real): seq<Stimulus>
  {
    var group := Str(id);
    [before,
     Stimulus(GRATING_TYPE, duration, BLACK, Metadata(group, Str(cohort), Flag(true), Str(direction), Undefined, Undefined),
              GratingShape(speed, size, angle, WHITE)),
     Stimulus(WAIT_TYPE, after, BLACK, Metadata(group, Undefined, Flag(true), Undefined, Undefined, Undefined), Plain)]
  }

  /** How many repetitions the duration, speed, angle and size loops make in
      one pass, and the loops in all. */
  function GratingDurationReps(p: GratingParams): nat {
    Mul(|p.durations|, p.repetitions)
  }

  function GratingSpeedReps(p: GratingParams): nat {
    Mul(|p.speeds|, GratingDurationReps(p))
  }

  function GratingAngleReps(p: GratingParams): nat {
    Mul(|p.angles|, GratingSpeedReps(p))
  }

  function GratingRepetitions(p: GratingParams): nat {
    Mul(|p.sizes|, GratingAngleReps(p))
  }

  /** How many repetitions precede pass `i` at size `si`, angle `ai`, speed
      `spi` and duration `di`: the value of the program's `rep` counter
      there. */
  function GratingIndex(p: GratingParams, si: nat, ai: nat, spi: nat, di: nat, i: nat): nat {
    Mul(si, GratingAngleReps(p)) + (Mul(ai, GratingSpeedReps(p)) + (Mul(spi, GratingDurationReps(p))
      + (Mul(di, p.repetitions) + i)))
  }

  /** The triple of direction `c` of repetition `t` at the given size, angle,
      speed and duration: forward at `angle`, reverse at
      `inverseAngle(angle)`. */
  function GratingTripleOf(p: GratingParams, t: nat, si: nat, ai: nat, spi: nat, di: nat, c: nat): seq<Stimulus>
    requires si < |p.sizes| && ai < |p.angles| && spi < |p.speeds| && di < |p.durations| && c < 2
  {
    var angle := p.angles[ai];
    GratingTriple(GratingBefore(p, t), p.durations[di], p.speeds[spi], p.sizes[si],
                  if c == 0 then angle else p.inverseAngle(angle), p.cohort(t),
                  if c == 0 then FORWARD else REVERSE, p.id(t, c), p.after(t, c))
  }

  /** Which triple a position of the list holds: direction `c` (0 forward,
      1 reverse) of pass `i` of the repetition loop at size `si`, angle
      `ai`, speed `spi` and duration `di`. The loops' order is stated on
      slots; the list holds each slot's triple in that order. */
  datatype GratingSlot = GratingSlot(si: nat, ai: nat, spi: nat, di: nat, i: nat, c: nat)

  /** What pass `i` of the repetition loop appends: the forward and the
      reverse triple of that repetition. */
  function GratingPass(si: nat, ai: nat, spi: nat, di: nat, i: nat): seq<GratingSlot> {
    [GratingSlot(si, ai, spi, di, i, 0), GratingSlot(si, ai, spi, di, i, 1)]
  }

  function GratingPassStep(si: nat, ai: nat, spi: nat, di: nat): nat -> seq<GratingSlot> {
    (i: nat) => GratingPass(si, ai, spi, di, i)
  }

  /** What the first `n` passes of the repetition loop append. */
  function GratingRepetitionLoop(si: nat, ai: nat, spi: nat, di: nat, n: nat): seq<GratingSlot> {
    Nest(n, GratingPassStep(si, ai, spi, di))
  }

  function GratingRepetitionStep(p: GratingParams, si: nat, ai: nat, spi: nat): nat -> seq<GratingSlot> {
    (di: nat) => GratingRepetitionLoop(si, ai, spi, di, p.repetitions)
  }

  /** What the first `n` passes of the duration loop append. */
  function GratingDurationLoop(p: GratingParams, si: nat, ai: nat, spi: nat, n: nat): seq<GratingSlot> {
    Nest(n, GratingRepetitionStep(p, si, ai, spi))
  }

  function GratingDurationStep(p: GratingParams, si: nat, ai: nat): nat -> seq<GratingSlot> {
    (spi: nat) => GratingDurationLoop(p, si, ai, spi, |p.durations|)
  }

  /** What the first `n` passes of the speed loop append. */
  function GratingSpeedLoop(p: GratingParams, si: nat, ai: nat, n: nat): seq<GratingSlot> {
    Nest(n, GratingDurationStep(p, si, ai))
  }

  function GratingSpeedStep(p: GratingParams, si: nat): nat -> seq<GratingSlot> {
    (ai: nat) => GratingSpeedLoop(p, si, ai, |p.speeds|)
  }

  /** What the first `n` passes of the angle loop append. */
  function GratingAngleLoop(p: GratingParams, si: nat, n: nat): seq<GratingSlot> {
    Nest(n, GratingSpeedStep(p, si))
  }

  function GratingAngleStep(p: GratingParams): nat -> seq<GratingSlot> {
    (si: nat) => GratingAngleLoop(p, si, |p.angles|)
  }

  /** What the first `n` passes of the size loop append. */
  function GratingSizeLoop(p: GratingParams, n: nat): seq<GratingSlot> {
    Nest(n, GratingAngleStep(p))
  }

  /** The slots of the whole list, in the order the loops make them. */
  function GratingSlots(p: GratingParams): seq<GratingSlot> {
    GratingSizeLoop(p, |p.sizes|)
  }

  /** The triple of a slot: that of its repetition, counted over all the
      loops (nothing for a slot outside the loops' ranges). */
  function GratingTripleAt(p: GratingParams, s: GratingSlot): seq<Stimulus> {
    if s.si < |p.sizes| && s.ai < |p.angles| && s.spi < |p.speeds| && s.di < |p.durations| && s.c < 2 then
      GratingTripleOf(p, GratingIndex(p, s.si, s.ai, s.spi, s.di, s.i), s.si, s.ai, s.spi, s.di, s.c)
    else
      []
  }

  function GratingTripleFor(p: GratingParams): GratingSlot -> seq<Stimulus> {
    (s: GratingSlot) => GratingTripleAt(p, s)
  }

  /** The triples the program builds before shuffling them. */
  function GratingTriples(p: GratingParams): seq<seq<Stimulus>> {
    Map(GratingTripleFor(p), GratingSlots(p))
  }

  /** How many triples a repetition, duration, speed and angle loop
      append. */
  function GratingRepetitionSpan(p: GratingParams): nat {
    Mul(p.repetitions, 2)
  }

  function GratingDurationSpan(p: GratingParams): nat {
    Mul(|p.durations|, GratingRepetitionSpan(p))
  }

  function GratingSpeedSpan(p: GratingParams): nat {
    Mul(|p.speeds|, GratingDurationSpan(p))
  }

  function GratingAngleSpan(p: GratingParams): nat {
    Mul(|p.angles|, GratingSpeedSpan(p))
  }

  /** Where direction `c` of repetition `i` at size `si`, angle `ai`, speed
      `spi` and duration `di` lands in the list. */
  function GratingPosition(p: GratingParams, si: nat, ai: nat, spi: nat, di: nat, i: nat, c: nat): nat {
    Mul(si, GratingAngleSpan(p)) + (Mul(ai, GratingSpeedSpan(p)) + (Mul(spi, GratingDurationSpan(p))
      + (Mul(di, GratingRepetitionSpan(p)) + (Mul(i, 2) + c))))
  }

  /** `Mul(a, 2 * m)` is `2 * Mul(a, m)`. */
  lemma {:induction false} MulTwice(a: nat, m: nat)
    ensures Mul(a, 2 * m) == 2 * Mul(a, m)
  {
    if a > 0 {
      MulTwice(a - 1, m);
    }
  }

  /** Each repetition appends two triples: direction `c` of the repetition
      the `rep` counter reads `t` at lands at `2 * t + c`. */
  lemma {:induction false} GratingPositionTwice(p: GratingParams, si: nat, ai: nat, spi: nat, di: nat, i: nat, c: nat)
    ensures GratingPosition(p, si, ai, spi, di, i, c) == 2 * GratingIndex(p, si, ai, spi, di, i) + c
    ensures Mul(|p.sizes|, GratingAngleSpan(p)) == 2 * GratingRepetitions(p)
  {
    GratingSpansTwice(p);
    MulIsProduct(i, 2);
    MulTwice(si, GratingAngleReps(p));
    MulTwice(ai, GratingSpeedReps(p));
    MulTwice(spi, GratingDurationReps(p));
    MulTwice(di, p.repetitions);
  }

  /** Each span of the list is twice the matching count of repetitions. */
  lemma {:induction false} GratingSpansTwice(p: GratingParams)
    ensures GratingRepetitionSpan(p) == 2 * p.repetitions
    ensures GratingDurationSpan(p) == 2 * GratingDurationReps(p)
    ensures GratingSpeedSpan(p) == 2 * GratingSpeedReps(p)
    ensures GratingAngleSpan(p) == 2 * GratingAngleReps(p)
    ensures Mul(|p.sizes|, GratingAngleSpan(p)) == 2 * GratingRepetitions(p)
  {
    MulIsProduct(p.repetitions, 2);
    MulTwice(|p.durations|, p.repetitions);
    assert GratingDurationSpan(p) == 2 * GratingDurationReps(p);
    MulTwice(|p.speeds|, GratingDurationReps(p));
    assert GratingSpeedSpan(p) == 2 * GratingSpeedReps(p);
    MulTwice(|p.angles|, GratingSpeedReps(p));
    assert GratingAngleSpan(p) == 2 * GratingAngleReps(p);
    MulTwice(|p.sizes|, GratingAngleReps(p));
  }

  /** A repetition loop appends two triples per pass. */
  lemma {:induction false} GratingRepetitionLength(p: GratingParams, si: nat, ai: nat, spi: nat, di: nat)
    ensures forall i: nat :: |GratingPassStep(si, ai, spi, di)(i)| == 2
    ensures |GratingRepetitionLoop(si, ai, spi, di, p.repetitions)| == GratingRepetitionSpan(p)
  {
    forall i: nat
      ensures |GratingPassStep(si, ai, spi, di)(i)| == 2
    {
      assert GratingPassStep(si, ai, spi, di)(i) == GratingPass(si, ai, spi, di, i);
    }
    NestLength(p.repetitions, GratingPassStep(si, ai, spi, di), 2);
  }

  /** A duration loop appends a whole repetition loop per pass. */
  lemma {:induction false} GratingDurationLength(p: GratingParams, si: nat, ai: nat, spi: nat)
    ensures forall di: nat :: |GratingRepetitionStep(p, si, ai, spi)(di)| == GratingRepetitionSpan(p)
    ensures |GratingDurationLoop(p, si, ai, spi, |p.durations|)| == GratingDurationSpan(p)
  {
    forall di: nat
      ensures |GratingRepetitionStep(p, si, ai, spi)(di)| == GratingRepetitionSpan(p)
    {
      GratingRepetitionLength(p, si, ai, spi, di);
      assert GratingRepetitionStep(p, si, ai, spi)(di) == GratingRepetitionLoop(si, ai, spi, di, p.repetitions);
    }
    NestLength(|p.durations|, GratingRepetitionStep(p, si, ai, spi), GratingRepetitionSpan(p));
  }

  /** A speed loop appends a whole duration loop per pass. */
  lemma {:induction false} GratingSpeedLength(p: GratingParams, si: nat, ai: nat)
    ensures forall spi: nat :: |GratingDurationStep(p, si, ai)(spi)| == GratingDurationSpan(p)
    ensures |GratingSpeedLoop(p, si, ai, |p.speeds|)| == GratingSpeedSpan(p)
  {
    forall spi: nat
      ensures |GratingDurationStep(p, si, ai)(spi)| == GratingDurationSpan(p)
    {
      GratingDurationLength(p, si, ai, spi);
      assert GratingDurationStep(p, si, ai)(spi) == GratingDurationLoop(p, si, ai, spi, |p.durations|);
    }
    NestLength(|p.speeds|, GratingDurationStep(p, si, ai), GratingDurationSpan(p));
  }

  /** An angle loop appends a whole speed loop per pass. */
  lemma {:induction false} GratingAngleLength(p: GratingParams, si: nat)
    ensures forall ai: nat :: |GratingSpeedStep(p, si)(ai)| == GratingSpeedSpan(p)
    ensures |GratingAngleLoop(p, si, |p.angles|)| == GratingAngleSpan(p)
  {
    forall ai: nat
      ensures |GratingSpeedStep(p, si)(ai)| == GratingSpeedSpan(p)
    {
      GratingSpeedLength(p, si, ai);
      assert GratingSpeedStep(p, si)(ai) == GratingSpeedLoop(p, si, ai, |p.speeds|);
    }
    NestLength(|p.angles|, GratingSpeedStep(p, si), GratingSpeedSpan(p));
  }

  /** The size loop appends a whole angle loop per pass: two triples per
      repetition in all. */
  lemma {:induction false} GratingSizeLength(p: GratingParams)
    ensures forall si: nat :: |GratingAngleStep(p)(si)| == GratingAngleSpan(p)
    ensures |GratingTriples(p)| == |GratingSlots(p)| == Mul(|p.sizes|, GratingAngleSpan(p)) == 2 * GratingRepetitions(p)
  {
    forall si: nat
      ensures |GratingAngleStep(p)(si)| == GratingAngleSpan(p)
    {
      GratingAngleLength(p, si);
      assert GratingAngleStep(p)(si) == GratingAngleLoop(p, si, |p.angles|);
    }
    NestLength(|p.sizes|, GratingAngleStep(p), GratingAngleSpan(p));
    GratingPositionTwice(p, 0, 0, 0, 0, 0, 0);
  }

  /** The program makes two triples for every size, angle, speed, duration
      and repetition. */
  lemma {:induction false} GratingCount(p: GratingParams)
    ensures |GratingTriples(p)| == 2 * (|p.sizes| * (|p.angles| * (|p.speeds| * (|p.durations| * p.repetitions))))
  {
    GratingSizeLength(p);
    MulIsProduct(|p.durations|, p.repetitions);
    MulIsProduct(|p.speeds|, GratingDurationReps(p));
    MulIsProduct(|p.angles|, GratingSpeedReps(p));
    MulIsProduct(|p.sizes|, GratingAngleReps(p));
  }

  /** Direction `c` of pass `i` sits at `Mul(i, 2) + c` of what the
      repetition loop appends. */
  lemma {:induction false} GratingPassAt(p: GratingParams, si: nat, ai: nat, spi: nat, di: nat, i: nat, c: nat)
    requires i < p.repetitions && c < 2
    ensures var g := GratingRepetitionLoop(si, ai, spi, di, p.repetitions);
      && |g| == GratingRepetitionSpan(p) && Mul(i, 2) + c < |g|
      && g[Mul(i, 2) + c] == GratingSlot(si, ai, spi, di, i, c)
  {
    GratingRepetitionLength(p, si, ai, spi, di);
    NestAt(p.repetitions, GratingPassStep(si, ai, spi, di), 2, i, c);
    assert GratingPassStep(si, ai, spi, di)(i) == GratingPass(si, ai, spi, di, i);
  }

  /** Slot `j` of the repetition loop at duration `di` sits at
      `Mul(di, GratingRepetitionSpan(p)) + j` of what the duration loop
      appends. */
  lemma {:induction false} GratingRepetitionAt(p: GratingParams, si: nat, ai: nat, spi: nat, di: nat, j: nat)
    requires di < |p.durations| && j < GratingRepetitionSpan(p)
    ensures var g, k := GratingDurationLoop(p, si, ai, spi, |p.durations|), Mul(di, GratingRepetitionSpan(p)) + j;
      && |GratingRepetitionLoop(si, ai, spi, di, p.repetitions)| == GratingRepetitionSpan(p)
      && |g| == GratingDurationSpan(p) && k < |g|
      && g[k] == GratingRepetitionLoop(si, ai, spi, di, p.repetitions)[j]
  {
    GratingRepetitionLength(p, si, ai, spi, di);
    GratingDurationLength(p, si, ai, spi);
    NestAt(|p.durations|, GratingRepetitionStep(p, si, ai, spi), GratingRepetitionSpan(p), di, j);
  }

  /** Slot `j` of the duration loop at speed `spi` sits at
      `Mul(spi, GratingDurationSpan(p)) + j` of what the speed loop
      appends. */
  lemma {:induction false} GratingDurationAt(p: GratingParams, si: nat, ai: nat, spi: nat, j: nat)
    requires spi < |p.speeds| && j < GratingDurationSpan(p)
    ensures var g, k := GratingSpeedLoop(p, si, ai, |p.speeds|), Mul(spi, GratingDurationSpan(p)) + j;
      && |GratingDurationLoop(p, si, ai, spi, |p.durations|)| == GratingDurationSpan(p)
      && |g| == GratingSpeedSpan(p) && k < |g|
      && g[k] == GratingDurationLoop(p, si, ai, spi, |p.durations|)[j]
  {
    GratingDurationLength(p, si, ai, spi);
    GratingSpeedLength(p, si, ai);
    NestAt(|p.speeds|, GratingDurationStep(p, si, ai), GratingDurationSpan(p), spi, j);
  }

  /** Slot `j` of the speed loop at angle `ai` sits at
      `Mul(ai, GratingSpeedSpan(p)) + j` of what the angle loop appends. */
  lemma {:induction false} GratingSpeedAt(p: GratingParams, si: nat, ai: nat, j: nat)
    requires ai < |p.angles| && j < GratingSpeedSpan(p)
    ensures var g, k := GratingAngleLoop(p, si, |p.angles|), Mul(ai, GratingSpeedSpan(p)) + j;
      && |GratingSpeedLoop(p, si, ai, |p.speeds|)| == GratingSpeedSpan(p)
      && |g| == GratingAngleSpan(p) && k < |g|
      && g[k] == GratingSpeedLoop(p, si, ai, |p.speeds|)[j]
  {
    GratingSpeedLength(p, si, ai);
    GratingAngleLength(p, si);
    NestAt(|p.angles|, GratingSpeedStep(p, si), GratingSpeedSpan(p), ai, j);
  }

  /** Slot `j` of the angle loop at size `si` sits at
      `Mul(si, GratingAngleSpan(p)) + j` of the list. */
  lemma {:induction false} GratingAngleAt(p: GratingParams, si: nat, j: nat)
    requires si < |p.sizes| && j < GratingAngleSpan(p)
    ensures var g, k := GratingSlots(p), Mul(si, GratingAngleSpan(p)) + j;
      && |GratingAngleLoop(p, si, |p.angles|)| == GratingAngleSpan(p)
      && k < |g| && g[k] == GratingAngleLoop(p, si, |p.angles|)[j]
  {
    GratingAngleLength(p, si);
    GratingSizeLength(p);
    NestAt(|p.sizes|, GratingAngleStep(p), GratingAngleSpan(p), si, j);
  }

  /** Direction `c` of pass `i` of the repetition loop at duration `di`
      sits at `Mul(di, GratingRepetitionSpan(p)) + (Mul(i, 2) + c)` of what
      the duration loop appends, ... */
  lemma {:induction false} GratingDurationLayout(p: GratingParams, si: nat, ai: nat, spi: nat, di: nat, i: nat, c: nat)
    requires di < |p.durations| && i < p.repetitions && c < 2
    ensures var g, k := GratingDurationLoop(p, si, ai, spi, |p.durations|),
                        Mul(di, GratingRepetitionSpan(p)) + (Mul(i, 2) + c);
      && |g| == GratingDurationSpan(p) && k < |g| && g[k] == GratingSlot(si, ai, spi, di, i, c)
  {
    GratingPassAt(p, si, ai, spi, di, i, c);
    GratingRepetitionAt(p, si, ai, spi, di, Mul(i, 2) + c);
  }

  /** ... at `Mul(spi, GratingDurationSpan(p)) + ...` of what the speed loop
      appends, ... */
  lemma {:induction false} GratingSpeedLayout(p: GratingParams, si: nat, ai: nat, spi: nat, di: nat, i: nat, c: nat)
    requires spi < |p.speeds| && di < |p.durations| && i < p.repetitions && c < 2
    ensures var g, k := GratingSpeedLoop(p, si, ai, |p.speeds|),
                        Mul(spi, GratingDurationSpan(p)) + (Mul(di, GratingRepetitionSpan(p)) + (Mul(i, 2) + c));
      && |g| == GratingSpeedSpan(p) && k < |g| && g[k] == GratingSlot(si, ai, spi, di, i, c)
  {
    GratingDurationLayout(p, si, ai, spi, di, i, c);
    GratingDurationAt(p, si, ai, spi, Mul(di, GratingRepetitionSpan(p)) + (Mul(i, 2) + c));
  }

  /** ... at `Mul(ai, GratingSpeedSpan(p)) + ...` of what the angle loop
      appends, ... */
  lemma {:induction false} GratingAngleLayout(p: GratingParams, si: nat, ai: nat, spi: nat, di: nat, i: nat, c: nat)
    requires ai < |p.angles| && spi < |p.speeds| && di < |p.durations| && i < p.repetitions && c < 2
    ensures var g, k := GratingAngleLoop(p, si, |p.angles|),
                        Mul(ai, GratingSpeedSpan(p)) + (Mul(spi, GratingDurationSpan(p))
                          + (Mul(di, GratingRepetitionSpan(p)) + (Mul(i, 2) + c)));
      && |g| == GratingAngleSpan(p) && k < |g| && g[k] == GratingSlot(si, ai, spi, di, i, c)
  {
    GratingSpeedLayout(p, si, ai, spi, di, i, c);
    GratingSpeedAt(p, si, ai, Mul(spi, GratingDurationSpan(p)) + (Mul(di, GratingRepetitionSpan(p)) + (Mul(i, 2) + c)));
  }

  /** ... and at `GratingPosition(p, si, ai, spi, di, i, c)` of the list. */
  lemma {:induction false} GratingSizeLayout(p: GratingParams, si: nat, ai: nat, spi: nat, di: nat, i: nat, c: nat)
    requires si < |p.sizes| && ai < |p.angles| && spi < |p.speeds| && di < |p.durations|
    requires i < p.repetitions && c < 2
    ensures var g, k := GratingSlots(p), GratingPosition(p, si, ai, spi, di, i, c);
      k < |g| && g[k] == GratingSlot(si, ai, spi, di, i, c)
  {
    GratingAngleLayout(p, si, ai, spi, di, i, c);
    GratingAngleAt(p, si, Mul(ai, GratingSpeedSpan(p)) + (Mul(spi, GratingDurationSpan(p))
                            + (Mul(di, GratingRepetitionSpan(p)) + (Mul(i, 2) + c))));
  }

  /** Direction `c` of repetition `i` at size `si`, angle `ai`, speed `spi`
      and duration `di` sits at `2 * t + c`, where `t` counts the
      repetitions before it. */
  lemma {:induction false} GratingLayout(p: GratingParams, si: nat, ai: nat, spi: nat, di: nat, i: nat, c: nat)
    requires si < |p.sizes| && ai < |p.angles| && spi < |p.speeds| && di < |p.durations|
    requires i < p.repetitions && c < 2
    ensures var g, t := GratingTriples(p), GratingIndex(p, si, ai, spi, di, i);
      2 * t + c < |g| && g[2 * t + c] == GratingTripleOf(p, t, si, ai, spi, di, c)
  {
    GratingSizeLayout(p, si, ai, spi, di, i, c);
    GratingPositionTwice(p, si, ai, spi, di, i, c);
    assert GratingTripleFor(p)(GratingSlot(si, ai, spi, di, i, c))
        == GratingTripleAt(p, GratingSlot(si, ai, spi, di, i, c));
  }

  /** Conversely every triple of the list is direction `c` of some
      repetition at some size, angle, speed and duration. */
  lemma {:induction false} GratingCovers(p: GratingParams, k: nat) returns (si: nat, ai: nat, spi: nat, di: nat, i: nat, c: nat)
    requires k < |GratingTriples(p)|
    ensures si < |p.sizes| && ai < |p.angles| && spi < |p.speeds| && di < |p.durations|
    ensures i < p.repetitions && c < 2
    ensures k == 2 * GratingIndex(p, si, ai, spi, di, i) + c
  {
    var j1, j2, j3, j4;
    GratingSizeLength(p);
    si, j4 := NestCovers(|p.sizes|, GratingAngleStep(p), GratingAngleSpan(p), k);
    GratingAngleLength(p, si);
    ai, j3 := NestCovers(|p.angles|, GratingSpeedStep(p, si), GratingSpeedSpan(p), j4);
    GratingSpeedLength(p, si, ai);
    spi, j2 := NestCovers(|p.speeds|, GratingDurationStep(p, si, ai), GratingDurationSpan(p), j3);
    GratingDurationLength(p, si, ai, spi);
    di, j1 := NestCovers(|p.durations|, GratingRepetitionStep(p, si, ai, spi), GratingRepetitionSpan(p), j2);
    GratingRepetitionLength(p, si, ai, spi, di);
    i, c := NestCovers(p.repetitions, GratingPassStep(si, ai, spi, di), 2, j1);
    GratingPositionTwice(p, si, ai, spi, di, i, c);
  }

  /** A pass of the repetition loop appends the forward and the reverse
      triple of that repetition. */
  lemma {:induction false} GratingRepetitionPush(p: GratingParams, si: nat, ai: nat, spi: nat, di: nat, i: nat)
    requires si < |p.sizes| && ai < |p.angles| && spi < |p.speeds| && di < |p.durations|
    ensures var t, f := GratingIndex(p, si, ai, spi, di, i), GratingTripleFor(p);
      Map(f, GratingRepetitionLoop(si, ai, spi, di, i + 1))
      == Map(f, GratingRepetitionLoop(si, ai, spi, di, i))
         + [GratingTripleOf(p, t, si, ai, spi, di, 0), GratingTripleOf(p, t, si, ai, spi, di, 1)]
  {
    var f := GratingTripleFor(p);
    assert GratingPassStep(si, ai, spi, di)(i) == GratingPass(si, ai, spi, di, i);
    MapAppend(f, GratingRepetitionLoop(si, ai, spi, di, i), GratingPass(si, ai, spi, di, i));
    assert f(GratingSlot(si, ai, spi, di, i, 0)) == GratingTripleAt(p, GratingSlot(si, ai, spi, di, i, 0));
    assert f(GratingSlot(si, ai, spi, di, i, 1)) == GratingTripleAt(p, GratingSlot(si, ai, spi, di, i, 1));
  }

  /** A pass of each outer loop appends the triples of a whole pass of the
      loop inside it. */
  lemma {:induction false} GratingDurationPush(p: GratingParams, si: nat, ai: nat, spi: nat, di: nat)
    ensures var f := GratingTripleFor(p);
      Map(f, GratingDurationLoop(p, si, ai, spi, di + 1))
      == Map(f, GratingDurationLoop(p, si, ai, spi, di)) + Map(f, GratingRepetitionLoop(si, ai, spi, di, p.repetitions))
  {
    assert GratingRepetitionStep(p, si, ai, spi)(di) == GratingRepetitionLoop(si, ai, spi, di, p.repetitions);
    MapAppend(GratingTripleFor(p), GratingDurationLoop(p, si, ai, spi, di),
              GratingRepetitionLoop(si, ai, spi, di, p.repetitions));
  }

  lemma {:induction false} GratingSpeedPush(p: GratingParams, si: nat, ai: nat, spi: nat)
    ensures var f := GratingTripleFor(p);
      Map(f, GratingSpeedLoop(p, si, ai, spi + 1))
      == Map(f, GratingSpeedLoop(p, si, ai, spi)) + Map(f, GratingDurationLoop(p, si, ai, spi, |p.durations|))
  {
    assert GratingDurationStep(p, si, ai)(spi) == GratingDurationLoop(p, si, ai, spi, |p.durations|);
    MapAppend(GratingTripleFor(p), GratingSpeedLoop(p, si, ai, spi), GratingDurationLoop(p, si, ai, spi, |p.durations|));
  }

  lemma {:induction false} GratingAnglePush(p: GratingParams, si: nat, ai: nat)
    ensures var f := GratingTripleFor(p);
      Map(f, GratingAngleLoop(p, si, ai + 1))
      == Map(f, GratingAngleLoop(p, si, ai)) + Map(f, GratingSpeedLoop(p, si, ai, |p.speeds|))
  {
    assert GratingSpeedStep(p, si)(ai) == GratingSpeedLoop(p, si, ai, |p.speeds|);
    MapAppend(GratingTripleFor(p), GratingAngleLoop(p, si, ai), GratingSpeedLoop(p, si, ai, |p.speeds|));
  }

  lemma {:induction false} GratingSizePush(p: GratingParams, si: nat)
    ensures var f := GratingTripleFor(p);
      Map(f, GratingSizeLoop(p, si + 1)) == Map(f, GratingSizeLoop(p, si)) + Map(f, GratingAngleLoop(p, si, |p.angles|))
  {
    assert GratingAngleStep(p)(si) == GratingAngleLoop(p, si, |p.angles|);
    MapAppend(GratingTripleFor(p), GratingSizeLoop(p, si), GratingAngleLoop(p, si, |p.angles|));
  }

  /** One pass of the repetition loop: it draws a cohort, builds the
      opening wait from the current `id`, then a forward and a reverse
      triple, each under a fresh id. */
  method GratingRepetition(p: GratingParams, size: real, angle: real, speed: real, duration: real,
                           ghost si: nat, ghost ai: nat, ghost spi: nat, ghost di: nat, rep: nat, id0: MetaValue)
    returns (forward: seq<Stimulus>, reverse: seq<Stimulus>, id: MetaValue)
    requires si < |p.sizes| && ai < |p.angles| && spi < |p.speeds| && di < |p.durations|
    requires size == p.sizes[si] && angle == p.angles[ai] && speed == p.speeds[spi] && duration == p.durations[di]
    requires id0 == PreviousId(p, rep)
    ensures forward == GratingTripleOf(p, rep, si, ai, spi, di, 0)
    ensures reverse == GratingTripleOf(p, rep, si, ai, spi, di, 1)
    ensures id == PreviousId(p, rep + 1)
  {
    var cohort := p.cohort(rep);
    var before := Wait(1.0, NoMetadata.(group := id0));
    id := Str(p.id(rep, 0));
    var left := SinusoidalGrating(duration, BLACK, speed, size, angle, WHITE,
                                  NoMetadata.(group := id, cohort := Str(cohort),
                                              stimulusClass := Str(FORWARD), block := Flag(true)));
    var after := Wait(p.after(rep, 0), NoMetadata.(group := id, block := Flag(true)));
    forward := [before, left, after];
    id := Str(p.id(rep, 1));
    var right := SinusoidalGrating(duration, BLACK, speed, size, p.inverseAngle(angle), WHITE,
                                   NoMetadata.(group := id, cohort := Str(cohort),
                                               stimulusClass := Str(REVERSE), block := Flag(true)));
    after := Wait(p.after(rep, 1), NoMetadata.(group := id, block := Flag(true)));
    reverse := [before, right, after];
  }

  /** The repetition loop at one size, angle, speed and duration. `rep`
      counts the repetitions made so far and indexes the draws. */
  method GratingPasses(p: GratingParams, size: real, angle: real, speed: real, duration: real,
                       ghost si: nat, ghost ai: nat, ghost spi: nat, ghost di: nat,
                       stimuli0: seq<seq<Stimulus>>, rep0: nat, id0: MetaValue)
    returns (stimuli: seq<seq<Stimulus>>, rep: nat, id: MetaValue)
    requires si < |p.sizes| && ai < |p.angles| && spi < |p.speeds| && di < |p.durations|
    requires size == p.sizes[si] && angle == p.angles[ai] && speed == p.speeds[spi] && duration == p.durations[di]
    requires rep0 == GratingIndex(p, si, ai, spi, di, 0) && id0 == PreviousId(p, rep0)
    ensures rep == GratingIndex(p, si, ai, spi, di + 1, 0) && id == PreviousId(p, rep)
    ensures stimuli == stimuli0 + Map(GratingTripleFor(p), GratingRepetitionLoop(si, ai, spi, di, p.repetitions))
  {
    ghost var f := GratingTripleFor(p);
    stimuli, rep, id := stimuli0, rep0, id0;
    for i: nat := 0 to p.repetitions
      invariant rep == GratingIndex(p, si, ai, spi, di, i) && id == PreviousId(p, rep)
      invariant stimuli == stimuli0 + Map(f, GratingRepetitionLoop(si, ai, spi, di, i))
    {
      var forward, reverse;
      forward, reverse, id := GratingRepetition(p, size, angle, speed, duration, si, ai, spi, di, rep, id);
      stimuli := stimuli + [forward, reverse];
      GratingRepetitionPush(p, si, ai, spi, di, i);
      AppendAssoc(stimuli0, Map(f, GratingRepetitionLoop(si, ai, spi, di, i)), [forward, reverse]);
      rep := rep + 1;
    }
  }

  /** The speed loop at one size and angle, each speed running the
      duration loop. */
  method GratingSpeeds(p: GratingParams, size: real, angle: real, ghost si: nat, ghost ai: nat,
                       stimuli0: seq<seq<Stimulus>>, rep0: nat, id0: MetaValue)
    returns (stimuli: seq<seq<Stimulus>>, rep: nat, id: MetaValue)
    requires si < |p.sizes| && ai < |p.angles| && size == p.sizes[si] && angle == p.angles[ai]
    requires rep0 == GratingIndex(p, si, ai, 0, 0, 0) && id0 == PreviousId(p, rep0)
    ensures rep == GratingIndex(p, si, ai + 1, 0, 0, 0) && id == PreviousId(p, rep)
    ensures stimuli == stimuli0 + Map(GratingTripleFor(p), GratingSpeedLoop(p, si, ai, |p.speeds|))
  {
    ghost var f := GratingTripleFor(p);
    stimuli, rep, id := stimuli0, rep0, id0;
    for spi: nat := 0 to |p.speeds|
      invariant rep == GratingIndex(p, si, ai, spi, 0, 0) && id == PreviousId(p, rep)
      invariant stimuli == stimuli0 + Map(f, GratingSpeedLoop(p, si, ai, spi))
    {
      ghost var speedsBefore := stimuli;
      stimuli, rep, id := GratingDurations(p, size, angle, p.speeds[spi], si, ai, spi, stimuli, rep, id);
      GratingSpeedPush(p, si, ai, spi);
      AppendAssoc(stimuli0, Map(f, GratingSpeedLoop(p, si, ai, spi)), Map(f, GratingDurationLoop(p, si, ai, spi, |p.durations|)));
    }
  }

  /** The duration loop at one size, angle and speed, each duration running
      the repetition loop. */
  method GratingDurations(p: GratingParams, size: real, angle: real, speed: real, ghost si: nat, ghost ai: nat,
                          ghost spi: nat, stimuli0: seq<seq<Stimulus>>, rep0: nat, id0: MetaValue)
    returns (stimuli: seq<seq<Stimulus>>, rep: nat, id: MetaValue)
    requires si < |p.sizes| && ai < |p.angles| && spi < |p.speeds|
    requires size == p.sizes[si] && angle == p.angles[ai] && speed == p.speeds[spi]
    requires rep0 == GratingIndex(p, si, ai, spi, 0, 0) && id0 == PreviousId(p, rep0)
    ensures rep == GratingIndex(p, si, ai, spi + 1, 0, 0) && id == PreviousId(p, rep)
    ensures stimuli == stimuli0 + Map(GratingTripleFor(p), GratingDurationLoop(p, si, ai, spi, |p.durations|))
  {
    ghost var f := GratingTripleFor(p);
    stimuli, rep, id := stimuli0, rep0, id0;
    for di: nat := 0 to |p.durations|
      invariant rep == GratingIndex(p, si, ai, spi, di, 0) && id == PreviousId(p, rep)
      invariant stimuli == stimuli0 + Map(f, GratingDurationLoop(p, si, ai, spi, di))
    {
      stimuli, rep, id := GratingPasses(p, size, angle, speed, p.durations[di], si, ai, spi, di, stimuli, rep, id);
      GratingDurationPush(p, si, ai, spi, di);
      AppendAssoc(stimuli0, Map(f, GratingDurationLoop(p, si, ai, spi, di)),
                  Map(f, GratingRepetitionLoop(si, ai, spi, di, p.repetitions)));
    }
  }

  /** The five loops: for each size, angle, speed, duration and repetition,
      a forward and a reverse triple that share one opening wait. */
  method BuildGrating(p: GratingParams) returns (stimuli: seq<seq<Stimulus>>)
    ensures stimuli == GratingTriples(p)
  {
    ghost var f := GratingTripleFor(p);
    stimuli := [];
    var rep: nat := 0;
    var id := Undefined;
    for si: nat := 0 to |p.sizes|
      invariant rep == GratingIndex(p, si, 0, 0, 0, 0) && id == PreviousId(p, rep)
      invariant stimuli == Map(f, GratingSizeLoop(p, si))
    {
      stimuli, rep, id := GratingAngles(p, p.sizes[si], si, stimuli, rep, id);
      GratingSizePush(p, si);
    }
  }

  /** The angle loop at one size, each angle running the speed loop. */
  method GratingAngles(p: GratingParams, size: real, ghost si: nat, stimuli0: seq<seq<Stimulus>>, rep0: nat, id0: MetaValue)
    returns (stimuli: seq<seq<Stimulus>>, rep: nat, id: MetaValue)
    requires si < |p.sizes| && size == p.sizes[si]
    requires rep0 == GratingIndex(p, si, 0, 0, 0, 0) && id0 == PreviousId(p, rep0)
    ensures rep == GratingIndex(p, si + 1, 0, 0, 0, 0) && id == PreviousId(p, rep)
    ensures stimuli == stimuli0 + Map(GratingTripleFor(p), GratingAngleLoop(p, si, |p.angles|))
  {
    ghost var f := GratingTripleFor(p);
    stimuli, rep, id := stimuli0, rep0, id0;
    for ai: nat := 0 to |p.angles|
      invariant rep == GratingIndex(p, si, ai, 0, 0, 0) && id == PreviousId(p, rep)
      invariant stimuli == stimuli0 + Map(f, GratingAngleLoop(p, si, ai))
    {
      stimuli, rep, id := GratingSpeeds(p, size, p.angles[ai], si, ai, stimuli, rep, id);
      GratingAnglePush(p, si, ai);
      AppendAssoc(stimuli0, Map(f, GratingAngleLoop(p, si, ai)), Map(f, GratingSpeedLoop(p, si, ai, |p.speeds|)));
    }
  }

  /** The opening wait of the triples of repetition `t > 0` carries the
      reverse group id of repetition `t - 1`, so it shares its triple's
      group only when two uuid draws collide; the first repetition's is
      tagged with no group at all. */
  lemma {:induction false} GratingStaleGroup(p: GratingParams, k: nat)
    requires k < |GratingTriples(p)|
    ensures var g, t := GratingTriples(p), k / 2;
      && |g[k]| == 3
      && g[k][1].metadata.group == g[k][2].metadata.group == Str(p.id(t, k % 2))
      && (t == 0 ==> g[k][0].metadata.group == Undefined)
      && (g[k][0].metadata.group == g[k][1].metadata.group <==> t > 0 && p.id(t - 1, 1) == p.id(t, k % 2))
  {
    var si, ai, spi, di, i, c := GratingCovers(p, k);
    GratingLayout(p, si, ai, spi, di, i, c);
    assert k / 2 == GratingIndex(p, si, ai, spi, di, i) && k % 2 == c;
    var g := GratingTriples(p)[k];
    assert g == GratingTripleOf(p, k / 2, si, ai, spi, di, k % 2);
    GratingTripleGroups(p, k / 2, si, ai, spi, di, k % 2);
    PreviousIdShared(p, k / 2, k % 2);
  }

  /** The groups of a triple: the opening wait's is the previous id, the
      grating's and the closing wait's the triple's own id. */
  lemma {:induction false} GratingTripleGroups(p: GratingParams, t: nat, si: nat, ai: nat, spi: nat, di: nat, c: nat)
    requires si < |p.sizes| && ai < |p.angles| && spi < |p.speeds| && di < |p.durations| && c < 2
    ensures var g := GratingTripleOf(p, t, si, ai, spi, di, c);
      && |g| == 3 && g[0].metadata.group == PreviousId(p, t)
      && g[1].metadata.group == g[2].metadata.group == Str(p.id(t, c))
  {
  }

  /** The previous id names the triple's own group exactly when the
      reverse id of the repetition before is the triple's id. */
  lemma {:induction false} PreviousIdShared(p: GratingParams, t: nat, c: nat)
    ensures t == 0 ==> PreviousId(p, t) == Undefined
    ensures PreviousId(p, t) == Str(p.id(t, c)) <==> t > 0 && p.id(t - 1, 1) == p.id(t, c)
  {
  }

  /** The triple the program evidently means to build: the opening wait in
      the triple's own group, as in the checkerboard and letters
      programs. */
  function GratingTripleIntended(p: GratingParams, t: nat, si: nat, ai: nat, spi: nat, di: nat, c: nat)
    : (g: seq<Stimulus>)
    requires si < |p.sizes| && ai < |p.angles| && spi < |p.speeds| && di < |p.durations| && c < 2
    ensures |g| == 3 && forall j | 0 <= j < 3 :: g[j].metadata.group == Str(p.id(t, c))
    ensures GroupForm(g, 3) && g[1..] == GratingTripleOf(p, t, si, ai, spi, di, c)[1..]
  {
    var angle := p.angles[ai];
    GratingTriple(Wait(1.0, NoMetadata.(group := Str(p.id(t, c)))), p.durations[di], p.speeds[spi], p.sizes[si],
                  if c == 0 then angle else p.inverseAngle(angle), p.cohort(t),
                  if c == 0 then FORWARD else REVERSE, p.id(t, c), p.after(t, c))
  }

  /** Every triple is a wait not marked `block`, then a grating of the
      repetition's size, speed and duration (forward at the angle, reverse
      at its inverse) and a closing wait, both marked `block`, both in the
      triple's group, the grating carrying the repetition's cohort. */
  lemma {:induction false} GratingTriplesShape(p: GratingParams, k: nat) returns (si: nat, ai: nat, spi: nat, di: nat)
    requires k < |GratingTriples(p)|
    ensures si < |p.sizes| && ai < |p.angles| && spi < |p.speeds| && di < |p.durations|
    ensures var g, t, c := GratingTriples(p)[k], k / 2, k % 2;
      && |g| == 3 && GroupForm(g, 3)
      && g[0] == GratingBefore(p, t)
      && g[1] == SinusoidalGrating(p.durations[di], BLACK, p.speeds[spi], p.sizes[si],
                                   if c == 0 then p.angles[ai] else p.inverseAngle(p.angles[ai]), WHITE,
                                   NoMetadata.(group := Str(p.id(t, c)), cohort := Str(p.cohort(t)),
                                               stimulusClass := Str(if c == 0 then FORWARD else REVERSE),
                                               block := Flag(true)))
      && g[2] == Wait(p.after(t, c), NoMetadata.(group := Str(p.id(t, c)), block := Flag(true)))
  {
    var i, c;
    si, ai, spi, di, i, c := GratingCovers(p, k);
    GratingLayout(p, si, ai, spi, di, i, c);
    assert k / 2 == GratingIndex(p, si, ai, spi, di, i) && k % 2 == c;
  }

  // ---------------------------------------------------------------------------
  // The programs' common ending: `r.shuffle(stimuli)`, then
  // `stimuli = measureIntegrity(flatten(stimuli))`, whose items the
  // generator yields in order.

  /** Where stimulus `j` of group `i` lands once groups of `m` are
      flattened. */
  function Slot(i: nat, m: nat, j: nat): nat {
    Mul(i, m) + j
  }

  /** The shuffle only permutes the groups, so they keep their form. */
  lemma {:induction false} ShuffledForm(groups: seq<seq<Stimulus>>, m: nat, picks: seq<nat>)
    requires Random.Partners(|groups|, picks)
    requires forall g | 0 <= g < |groups| :: GroupForm(groups[g], m)
    ensures var shuffled := Random.FisherYates(groups, picks);
      && multiset(shuffled) == multiset(groups)
      && forall g | 0 <= g < |shuffled| :: GroupForm(shuffled[g], m)
  {
    var shuffled := Random.FisherYates(groups, picks);
    Random.FisherYatesPermutes(groups, picks);
    forall g | 0 <= g < |shuffled|
      ensures GroupForm(shuffled[g], m)
    {
      assert shuffled[g] in multiset(shuffled);
      var h :| 0 <= h < |groups| && groups[h] == shuffled[g];
    }
  }

  /** No flash splits a group. */
  lemma {:induction false} FlashesOnlyAtGroupStarts(groups: seq<seq<Stimulus>>, m: nat, every: real, uuid: nat -> string)
    requires forall g | 0 <= g < |groups| :: GroupForm(groups[g], m)
    ensures var p := Pieces(Flat(groups), every, every, uuid, 0);
      forall i, j | 0 <= i < |groups| && 0 < j < m :: Slot(i, m, j) < |p| && !Flashed(p[Slot(i, m, j)])
  {
    forall i, j | 0 <= i < |groups| && 0 < j < m
      ensures var p := Pieces(Flat(groups), every, every, uuid, 0); Slot(i, m, j) < |p| && !Flashed(p[Slot(i, m, j)])
    {
      FlashesAtGroupStarts(groups, m, every, uuid, i, j);
    }
  }

  /** The first group's opening wait gets a flash: the running total starts
      at the spacing itself. */
  lemma {:induction false} FirstGroupFlashed(groups: seq<seq<Stimulus>>, m: nat, uuid: nat -> string)
    requires groups != [] && forall g | 0 <= g < |groups| :: GroupForm(groups[g], m)
    ensures var p := Pieces(Flat(groups), EVERY, EVERY, uuid, 0); |p| > 0 && Flashed(p[0])
  {
    assert GroupForm(groups[0], m);
    FlatGroupsAt(groups, m, 0, 0);
    PiecesHead(Flat(groups), EVERY, EVERY, uuid, 0);
  }

  /** The ending of a program: the groups shuffled with the partners
      `picks` the shuffle draws, flattened, and passed through
      `measureIntegrity` every five minutes. */
  method Finish(groups: seq<seq<Stimulus>>, picks: seq<nat>, uuid: nat -> string) returns (stream: seq<Stimulus>)
    requires Random.Partners(|groups|, picks)
    ensures stream == Flat(Pieces(Flat(Random.FisherYates(groups, picks)), EVERY, EVERY, uuid, 0))
  {
    var shuffled := Random.FisherYates(groups, picks);
    stream := MeasureIntegrity(Flat(shuffled), EVERY, uuid);
  }

  /** What a program yields from groups of one form: the shuffled groups'
      stimuli, in order, each alone or after a flash; the first stimulus
      always gets a flash, and no flash ever splits a group. */
  lemma {:induction false} StreamForm(groups: seq<seq<Stimulus>>, m: nat, picks: seq<nat>, uuid: nat -> string)
    requires Random.Partners(|groups|, picks)
    requires forall g | 0 <= g < |groups| :: GroupForm(groups[g], m)
    ensures var shuffled := Random.FisherYates(groups, picks);
      var p := Pieces(Flat(shuffled), EVERY, EVERY, uuid, 0);
      && multiset(shuffled) == multiset(groups)
      && |p| == Mul(|groups|, m)
      && (forall k | 0 <= k < |p| :: |p[k]| > 0) && Unflashed(p) == Flat(shuffled)
      && (forall k | 0 <= k < |p| :: Flashed(p[k]) ==> IsFlash(p[k][..3]))
      && (forall i, j | 0 <= i < |groups| && 0 < j < m :: Slot(i, m, j) < |p| && !Flashed(p[Slot(i, m, j)]))
      && (|groups| > 0 ==> |p| > 0 && Flashed(p[0]))
  {
    var shuffled := Random.FisherYates(groups, picks);
    var stims := Flat(shuffled);
    ShuffledForm(groups, m, picks);
    FlatLength(shuffled, m);
    PiecesShape(stims, EVERY, EVERY, uuid, 0);
    UnflashedIsInput(stims, EVERY, EVERY, uuid, 0);
    FlashesOnlyAtGroupStarts(shuffled, m, EVERY, uuid);
    if |groups| > 0 {
      FirstGroupFlashed(shuffled, m, uuid);
    }
  }

  /** checkerboard.js as a whole. */
  method CheckerboardProgram(p: CheckerboardParams, picks: seq<nat>, uuid: nat -> string)
    returns (stream: seq<Stimulus>)
    requires Random.Partners(|CheckerboardGroups(p)|, picks)
    ensures stream == Flat(Pieces(Flat(Random.FisherYates(CheckerboardGroups(p), picks)), EVERY, EVERY, uuid, 0))
  {
    var groups := BuildCheckerboard(p);
    stream := Finish(groups, picks, uuid);
  }

  /** letters-tiled.js as a whole. */
  method LettersProgram(p: LettersParams, picks: seq<nat>, uuid: nat -> string) returns (stream: seq<Stimulus>)
    requires Random.Partners(|LetterTriples(p)|, picks)
    ensures stream == Flat(Pieces(Flat(Random.FisherYates(LetterTriples(p), picks)), EVERY, EVERY, uuid, 0))
  {
    var groups := BuildLetters(p);
    stream := Finish(groups, picks, uuid);
  }

  /** grating-sinusoidal-durations.js as a whole. */
  method GratingProgram(p: GratingParams, picks: seq<nat>, uuid: nat -> string) returns (stream: seq<Stimulus>)
    requires Random.Partners(|GratingTriples(p)|, picks)
    ensures stream == Flat(Pieces(Flat(Random.FisherYates(GratingTriples(p), picks)), EVERY, EVERY, uuid, 0))
  {
    var groups := BuildGrating(p);
    stream := Finish(groups, picks, uuid);
  }

  /** In the checkerboard program's output the flashes fall only before
      the opening wait of a group of four, and the first stimulus gets
      one. */
  lemma {:induction false} CheckerboardStream(p: CheckerboardParams, picks: seq<nat>, uuid: nat -> string)
    requires Random.Partners(|CheckerboardGroups(p)|, picks)
    ensures var groups := CheckerboardGroups(p);
      var pieces := Pieces(Flat(Random.FisherYates(groups, picks)), EVERY, EVERY, uuid, 0);
      && |pieces| == Mul(|groups|, 4)
      && (forall i, j | 0 <= i < |groups| && 0 < j < 4 :: Slot(i, 4, j) < |pieces| && !Flashed(pieces[Slot(i, 4, j)]))
      && (|groups| > 0 ==> |pieces| > 0 && Flashed(pieces[0]))
  {
    var groups := CheckerboardGroups(p);
    forall k | 0 <= k < |groups|
      ensures GroupForm(groups[k], 4)
    {
      var _, _, _ := CheckerboardGroupsShape(p, k);
    }
    StreamForm(groups, 4, picks, uuid);
  }

  /** In the letters program's output the flashes fall only before the
      opening wait of a triple. */
  lemma {:induction false} LettersStream(p: LettersParams, picks: seq<nat>, uuid: nat -> string)
    requires Random.Partners(|LetterTriples(p)|, picks)
    ensures var groups := LetterTriples(p);
      var pieces := Pieces(Flat(Random.FisherYates(groups, picks)), EVERY, EVERY, uuid, 0);
      && |pieces| == Mul(|groups|, 3)
      && (forall i, j | 0 <= i < |groups| && 0 < j < 3 :: Slot(i, 3, j) < |pieces| && !Flashed(pieces[Slot(i, 3, j)]))
      && (|groups| > 0 ==> |pieces| > 0 && Flashed(pieces[0]))
  {
    var groups := LetterTriples(p);
    forall k | 0 <= k < |groups|
      ensures GroupForm(groups[k], 3)
    {
      var _, _, _ := LetterTriplesShape(p, k);
    }
    StreamForm(groups, 3, picks, uuid);
  }

  /** In the grating program's output the flashes fall only before the
      opening wait of a triple. */
  lemma {:induction false} GratingStream(p: GratingParams, picks: seq<nat>, uuid: nat -> string)
    requires Random.Partners(|GratingTriples(p)|, picks)
    ensures var groups := GratingTriples(p);
      var pieces := Pieces(Flat(Random.FisherYates(groups, picks)), EVERY, EVERY, uuid, 0);
      && |pieces| == Mul(|groups|, 3)
      && (forall i, j | 0 <= i < |groups| && 0 < j < 3 :: Slot(i, 3, j) < |pieces| && !Flashed(pieces[Slot(i, 3, j)]))
      && (|groups| > 0 ==> |pieces| > 0 && Flashed(pieces[0]))
  {
    var groups := GratingTriples(p);
    forall k | 0 <= k < |groups|
      ensures GroupForm(groups[k], 3)
    {
      var _, _, _, _ := GratingTriplesShape(p, k);
    }
    StreamForm(groups, 3, picks, uuid);
  }
}

