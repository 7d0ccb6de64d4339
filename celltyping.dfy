/** The cell-typing program's pre-rendered binary noise: a screen cut into
    checkers, each checker showing black or white in every frame, with
    exactly half of the frames white for every checker; the frames are
    written into one RGBA byte buffer; and the rendering is split into jobs
    of a fixed number of frames.

    The window size and the random generator are parameters. Drawing the
    frames on a canvas and the progress messages are not modelled. */
module CellTyping {
  import opened Wrappers
  import opened Ints
  import Random

  // ---------------------------------------------------------------------------
  // pix2checker

  /** `Math.ceil(a / b)` for non-negative integers: the least `q` with
      `q * b >= a`. */
  function CeilDiv(a: nat, b: nat): nat
    requires b > 0
  {
    (a + b - 1) / b
  }

  /** `CeilDiv(a, b)` is the least `q` with `q * b >= a`. */
  lemma {:induction false} CeilDivBounds(a: nat, b: nat)
    requires b > 0
    ensures var q := CeilDiv(a, b); q * b >= a && (q == 0 || (q - 1) * b < a)
  {
    var x := a + b - 1;
    assert x == (x / b) * b + x % b;
  }

  /** How many checkers of `checkerW` pixels cover a row of `W` pixels; the
      last one may be cut off by the edge. */
  function CheckersPerRow(W: nat, checkerW: nat): nat
    requires checkerW > 0
  {
    CeilDiv(W, checkerW)
  }

  /** `pix2checker`: the index, row-major among the checkers, of the checker
      holding pixel `pixIdx` of a row-major `H` by `W` screen. `H` is
      unused, as in the program. */
  function Pix2Checker(pixIdx: nat, H: nat, W: nat, checkerH: nat, checkerW: nat): nat
    requires W > 0 && checkerH > 0 && checkerW > 0
  {
    var J := Rem(pixIdx, W);
    var I := Quot(pixIdx, W);
    RowMajor(Quot(I, checkerH), Quot(J, checkerW), CheckersPerRow(W, checkerW))
  }

  /** Quotient and remainder of non-negative integers. */
  function Quot(a: nat, b: nat): nat
    requires b > 0
  {
    a / b
  }

  function Rem(a: nat, b: nat): nat
    requires b > 0
  {
    a % b
  }

  /** The row-major index of column `j` of row `i`, `perRow` to a row. */
  function RowMajor(i: nat, j: nat, perRow: nat): nat {
    MulNonNegative(i, perRow);
    i * perRow + j
  }

  lemma {:induction false} MulNonNegative(a: nat, b: nat)
    ensures a * b >= 0
  {
  }

  /** The examples in the program's comment: the first pixel of the 81st
      row of a 1280 by 800 screen in 80-pixel checkers is in checker 16 ... */
  lemma {:induction false} Pix2CheckerNextRow()
    ensures Pix2Checker(1280 * 80, 800, 1280, 80, 80) == 16
  {
    CheckersPerRowExample();
    assert Quot(1280 * 80, 1280) == 80 && Rem(1280 * 80, 1280) == 0;
    assert Quot(80, 80) == 1 && Quot(0, 80) == 0;
  }

  /** ... the first pixel of the 80th row is still in checker 0 ... */
  lemma {:induction false} Pix2CheckerFirstRow()
    ensures Pix2Checker(1280 * 79, 800, 1280, 80, 80) == 0
  {
    CheckersPerRowExample();
    assert Quot(1280 * 79, 1280) == 79 && Rem(1280 * 79, 1280) == 0;
    assert Quot(79, 80) == 0 && Quot(0, 80) == 0;
  }

  /** ... and the last pixel of the first row is in checker 15. */
  lemma {:induction false} Pix2CheckerRowEnd()
    ensures Pix2Checker(1279, 800, 1280, 80, 80) == 15
  {
    CheckersPerRowExample();
    assert Quot(1279, 1280) == 0 && Rem(1279, 1280) == 1279;
    assert Quot(0, 80) == 0 && Quot(1279, 80) == 15;
  }

  /** A 1280-pixel row holds 16 checkers of 80 pixels. */
  lemma {:induction false} CheckersPerRowExample()
    ensures CheckersPerRow(1280, 80) == 16
  {
    assert (1280 + 80 - 1) / 80 == 16;
  }

  /** The checker found holds the pixel: its row and column, read back from
      the index, span the pixel's row and column, and the column is one of
      the row's checkers. */
  lemma {:induction false} Pix2CheckerContains(pixIdx: nat, H: nat, W: nat, checkerH: nat, checkerW: nat)
    requires W > 0 && checkerH > 0 && checkerW > 0
    ensures var c, perRow := Pix2Checker(pixIdx, H, W, checkerH, checkerW), CheckersPerRow(W, checkerW);
      var I, J := pixIdx / W, pixIdx % W;
      && perRow > 0
      && (c / perRow) * checkerH <= I < (c / perRow) * checkerH + checkerH
      && (c % perRow) * checkerW <= J < (c % perRow) * checkerW + checkerW
  {
    var perRow := CheckersPerRow(W, checkerW);
    var I, J := pixIdx / W, pixIdx % W;
    var i, j := I / checkerH, J / checkerW;
    ColumnInRow(J, W, checkerW);
    DivModUnique(i * perRow + j, perRow, i, j);
    assert I == i * checkerH + I % checkerH;
    assert J == j * checkerW + J % checkerW;
  }

  /** A column of pixels `J < W` lies in one of the row's checkers. */
  lemma {:induction false} ColumnInRow(J: nat, W: nat, checkerW: nat)
    requires checkerW > 0 && J < W
    ensures J / checkerW < CheckersPerRow(W, checkerW)
  {
    var q := CheckersPerRow(W, checkerW);
    CeilDivBounds(W, checkerW);
    assert J == (J / checkerW) * checkerW + J % checkerW;
    if J / checkerW >= q {
      MulMonotone(q, J / checkerW, checkerW);
    }
  }

  /** Every pixel of the screen maps to one of the
      `checkersPerRow * checkersPerCol` checkers. */
  lemma {:induction false} Pix2CheckerBound(pixIdx: nat, H: nat, W: nat, checkerH: nat, checkerW: nat)
    requires W > 0 && checkerH > 0 && checkerW > 0
    requires pixIdx < H * W
    ensures Pix2Checker(pixIdx, H, W, checkerH, checkerW) < CheckerCount(H, W, checkerH, checkerW)
  {
    var perRow, perCol := CheckersPerRow(W, checkerW), CeilDiv(H, checkerH);
    var I, J := pixIdx / W, pixIdx % W;
    var i, j := I / checkerH, J / checkerW;
    assert pixIdx == I * W + J;
    if I >= H {
      MulMonotone(H, I, W);
    }
    ColumnInRow(J, W, checkerW);
    ColumnInRow(I, H, checkerH);
    assert i + 1 <= perCol;
    assert i * perRow + j < (i + 1) * perRow;
    MulMonotone(i + 1, perCol, perRow);
  }

  lemma {:induction false} MulMonotone(a: nat, b: nat, m: nat)
    requires a <= b
    ensures a * m <= b * m
  {
    if a < b {
      MulAtLeast(m, b - a);
      assert b * m == a * m + (b - a) * m;
    }
  }

  /** `nCheckers`: how many checkers cover the screen. */
  function CheckerCount(H: nat, W: nat, checkerH: nat, checkerW: nat): nat
    requires checkerH > 0 && checkerW > 0
  {
    CheckersPerRow(W, checkerW) * CeilDiv(H, checkerH)
  }

  // ---------------------------------------------------------------------------
  // Balanced pixel arrays

  const BLACK_LEVEL: int := 0
  const WHITE_LEVEL: int := 255

  /** `v` repeated `n` times. */
  function Repeat(v: int, n: nat): (s: seq<int>)
    ensures |s| == n && forall k | 0 <= k < n :: s[k] == v
  {
    if n == 0 then [] else Repeat(v, n - 1) + [v]
  }

  lemma {:induction false} RepeatCounts(v: int, n: nat, w: int)
    ensures multiset(Repeat(v, n))[w] == if w == v then n else 0
  {
    if n > 0 {
      RepeatCounts(v, n - 1, w);
    }
  }

  /** `singlePixel`: the levels of one checker over `nFrames` frames before
      shuffling, half black and then half white. `Array(nFrames / 2)` throws
      a RangeError when `nFrames` is odd (the program only logs the failed
      `console.assert` before it). */
  function SinglePixel(nFrames: nat): Option<seq<int>> {
    if nFrames % 2 != 0 then None
    else Some(Repeat(BLACK_LEVEL, nFrames / 2) + Repeat(WHITE_LEVEL, nFrames / 2))
  }

  /** A checker's levels are balanced: as many black frames as white ones,
      and nothing else, so its mean level is half of white. */
  predicate Balanced(levels: seq<int>) {
    && |levels| % 2 == 0
    && multiset(levels)[BLACK_LEVEL] == |levels| / 2
    && multiset(levels)[WHITE_LEVEL] == |levels| / 2
  }

  /** `singlePixel` exists exactly for an even frame count, and is then
      balanced. */
  lemma {:induction false} SinglePixelBalanced(nFrames: nat)
    ensures SinglePixel(nFrames).Some? <==> nFrames % 2 == 0
    ensures SinglePixel(nFrames).Some? ==> |SinglePixel(nFrames).value| == nFrames && Balanced(SinglePixel(nFrames).value)
  {
    if nFrames % 2 == 0 {
      var h := nFrames / 2;
      RepeatCounts(BLACK_LEVEL, h, BLACK_LEVEL);
      RepeatCounts(BLACK_LEVEL, h, WHITE_LEVEL);
      RepeatCounts(WHITE_LEVEL, h, BLACK_LEVEL);
      RepeatCounts(WHITE_LEVEL, h, WHITE_LEVEL);
    }
  }

  /** A permutation of balanced levels is balanced. */
  lemma {:induction false} PermutationBalanced(a: seq<int>, b: seq<int>)
    requires Balanced(a) && multiset(a) == multiset(b)
    ensures Balanced(b)
  {
    assert |a| == |multiset(a)| == |multiset(b)| == |b|;
  }

  /** The checker loop: for each checker, shuffle `singlePixel` in place
      (each shuffle continuing from the previous arrangement) and keep a
      copy. Every copy is a permutation of the original levels. */
  method ShuffledCopies(r: Random.DeterministicRandom, singlePixel: array<int>, nCheckers: nat)
    returns (pixelArrays: seq<seq<int>>)
    requires forall d: nat, range: nat | 2 <= range <= singlePixel.Length :: r.Accepts(d, range)
    modifies r, singlePixel
    ensures |pixelArrays| == nCheckers
    ensures forall p | 0 <= p < nCheckers ::
      |pixelArrays[p]| == singlePixel.Length && multiset(pixelArrays[p]) == multiset(old(singlePixel[..]))
  {
    pixelArrays := [];
    for p := 0 to nCheckers
      invariant |pixelArrays| == p
      invariant multiset(singlePixel[..]) == multiset(old(singlePixel[..]))
      invariant forall q | 0 <= q < p ::
        |pixelArrays[q]| == singlePixel.Length && multiset(pixelArrays[q]) == multiset(old(singlePixel[..]))
    {
      var _ := r.Shuffle(singlePixel);
      pixelArrays := pixelArrays + [singlePixel[..]];
    }
  }

  // ---------------------------------------------------------------------------
  // The frame buffer

  /** Where channel `c` (red, green, blue, alpha) of pixel `p` of frame `n`
      sits in the buffer of all frames, each frame `nPixels` RGBA pixels. */
  function FrameIndex(p: nat, n: nat, c: nat, nPixels: nat): nat {
    p * 4 + n * nPixels * 4 + c
  }

  /** Distinct pixels, frames or channels sit at distinct places. */
  lemma {:induction false} FrameIndexInjective(p: nat, n: nat, c: nat, p': nat, n': nat, c': nat, nPixels: nat)
    requires p < nPixels && p' < nPixels && c < 4 && c' < 4
    requires FrameIndex(p, n, c, nPixels) == FrameIndex(p', n', c', nPixels)
    ensures p == p' && n == n' && c == c'
  {
    var s, s' := n * nPixels + p, n' * nPixels + p';
    DivModUnique(FrameIndex(p, n, c, nPixels), 4, s, c);
    DivModUnique(FrameIndex(p', n', c', nPixels), 4, s', c');
    DivModUnique(s, nPixels, n, p);
    DivModUnique(s', nPixels, n', p');
  }

  /** The places of the pixels of `nFrames` frames fill a buffer of
      `nFrames * nPixels * 4` bytes. */
  lemma {:induction false} FrameIndexBound(p: nat, n: nat, c: nat, nPixels: nat, nFrames: nat)
    requires p < nPixels && n < nFrames && c < 4
    ensures FrameIndex(p, n, c, nPixels) < nFrames * nPixels * 4
  {
    MulMonotone(n + 1, nFrames, nPixels);
    assert (n + 1) * nPixels == n * nPixels + nPixels;
  }

  /** Every byte of the buffer is the place of some pixel, frame and
      channel. */
  lemma {:induction false} FrameIndexCovers(k: nat, nPixels: nat) returns (p: nat, n: nat, c: nat)
    requires nPixels > 0
    ensures p < nPixels && c < 4 && k == FrameIndex(p, n, c, nPixels)
  {
    var s := k / 4;
    c := k % 4;
    n, p := s / nPixels, s % nPixels;
    assert k == s * 4 + c;
    assert s == n * nPixels + p;
    assert s * 4 == p * 4 + n * nPixels * 4 by {
      assert (n * nPixels + p) * 4 == n * nPixels * 4 + p * 4;
    }
  }

  /** The level the program writes for channel `c` of pixel `p` in frame
      `n`: the frame's level of the pixel's checker on red, green and blue,
      and 255 on alpha. */
  function Level(levels: seq<seq<int>>, nFrames: nat, H: nat, W: nat, checkerH: nat, checkerW: nat,
                 p: nat, n: nat, c: nat): int
    requires W > 0 && checkerH > 0 && checkerW > 0
    requires |levels| == CheckerCount(H, W, checkerH, checkerW)
    requires forall q | 0 <= q < |levels| :: |levels[q]| == nFrames
    requires p < H * W && n < nFrames && c < 4
  {
    Pix2CheckerBound(p, H, W, checkerH, checkerW);
    if c == 3 then WHITE_LEVEL else levels[Pix2Checker(p, H, W, checkerH, checkerW)][n]
  }

  /** Pixel `p` of frame `n` holds its four channels in `buf`. */
  predicate Painted(buf: seq<int>, levels: seq<seq<int>>, nFrames: nat, H: nat, W: nat, checkerH: nat, checkerW: nat,
                    p: nat, n: nat)
    requires W > 0 && checkerH > 0 && checkerW > 0
    requires |levels| == CheckerCount(H, W, checkerH, checkerW)
    requires forall q | 0 <= q < |levels| :: |levels[q]| == nFrames
    requires p < H * W && n < nFrames
  {
    FrameIndex(p, n, 3, H * W) < |buf|
    && forall c | 0 <= c < 4 ::
         buf[FrameIndex(p, n, c, H * W)] == Level(levels, nFrames, H, W, checkerH, checkerW, p, n, c)
  }

  /** Painting one pixel of one frame leaves every other pixel of every
      frame as it was. */
  lemma {:induction false} PaintKeeps(before: seq<int>, after: seq<int>, levels: seq<seq<int>>, nFrames: nat, H: nat, W: nat,
                   checkerH: nat, checkerW: nat, p: nat, n: nat, p': nat, n': nat)
    requires W > 0 && checkerH > 0 && checkerW > 0
    requires |levels| == CheckerCount(H, W, checkerH, checkerW)
    requires forall q | 0 <= q < |levels| :: |levels[q]| == nFrames
    requires p < H * W && n < nFrames && p' < H * W && n' < nFrames
    requires p != p' || n != n'
    requires |after| == |before|
    requires forall k | 0 <= k < |before| && (k < FrameIndex(p, n, 0, H * W) || k >= FrameIndex(p, n, 0, H * W) + 4) ::
      after[k] == before[k]
    requires Painted(before, levels, nFrames, H, W, checkerH, checkerW, p', n')
    ensures Painted(after, levels, nFrames, H, W, checkerH, checkerW, p', n')
  {
    var nPixels := H * W;
    forall c | 0 <= c < 4
      ensures FrameIndex(p', n', c, nPixels) < FrameIndex(p, n, 0, nPixels)
           || FrameIndex(p', n', c, nPixels) >= FrameIndex(p, n, 0, nPixels) + 4
    {
      var s, s' := n * nPixels + p, n' * nPixels + p';
      if s == s' {
        DivModUnique(s, nPixels, n, p);
        DivModUnique(s, nPixels, n', p');
      }
    }
  }

  /** Paints channel by channel the pixel whose red channel is at `i`:
      `v` on red, green and blue, 255 on alpha. */
  method PaintPixel(frames: array<int>, i: nat, v: int)
    requires i + 4 <= frames.Length
    modifies frames
    ensures frames[i] == v && frames[i + 1] == v && frames[i + 2] == v && frames[i + 3] == WHITE_LEVEL
    ensures forall k | 0 <= k < frames.Length && (k < i || k >= i + 4) :: frames[k] == old(frames[k])
  {
    frames[i] := v;
    frames[i + 1] := v;
    frames[i + 2] := v;
    frames[i + 3] := WHITE_LEVEL;
  }

  /** The frame loop for pixel `p`: the pixel takes, frame by frame, the
      levels of its checker; every other pixel keeps what it held. */
  method PaintFrames(frames: array<int>, levels: seq<seq<int>>, nFrames: nat, H: nat, W: nat,
                     checkerH: nat, checkerW: nat, p: nat)
    requires W > 0 && checkerH > 0 && checkerW > 0
    requires |levels| == CheckerCount(H, W, checkerH, checkerW)
    requires forall q | 0 <= q < |levels| :: |levels[q]| == nFrames
    requires p < H * W && frames.Length == nFrames * (H * W) * 4
    modifies frames
    ensures forall n | 0 <= n < nFrames :: Painted(frames[..], levels, nFrames, H, W, checkerH, checkerW, p, n)
    ensures forall p', n | 0 <= p' < H * W && p' != p && 0 <= n < nFrames ::
      Painted(old(frames[..]), levels, nFrames, H, W, checkerH, checkerW, p', n) ==>
      Painted(frames[..], levels, nFrames, H, W, checkerH, checkerW, p', n)
  {
    var nPixels := H * W;
    Pix2CheckerBound(p, H, W, checkerH, checkerW);
    var checkerIdx := Pix2Checker(p, H, W, checkerH, checkerW);
    var singlePixel := levels[checkerIdx];
    for n := 0 to nFrames
      invariant forall n' | 0 <= n' < n :: Painted(frames[..], levels, nFrames, H, W, checkerH, checkerW, p, n')
      invariant forall p', n' | 0 <= p' < H * W && p' != p && 0 <= n' < nFrames ::
        Painted(old(frames[..]), levels, nFrames, H, W, checkerH, checkerW, p', n') ==>
        Painted(frames[..], levels, nFrames, H, W, checkerH, checkerW, p', n')
    {
      FrameIndexBound(p, n, 3, nPixels, nFrames);
      ghost var before := frames[..];
      PaintPixel(frames, FrameIndex(p, n, 0, nPixels), singlePixel[n]);
      assert Painted(frames[..], levels, nFrames, H, W, checkerH, checkerW, p, n);
      forall p', n' | 0 <= p' < H * W && 0 <= n' < nFrames && (p' != p || n' < n)
        && Painted(before, levels, nFrames, H, W, checkerH, checkerW, p', n')
        ensures Painted(frames[..], levels, nFrames, H, W, checkerH, checkerW, p', n')
      {
        PaintKeeps(before, frames[..], levels, nFrames, H, W, checkerH, checkerW, p, n, p', n');
      }
    }
  }

  /** The pixel loop: every pixel takes, frame by frame, the levels of its
      checker, grey (R = G = B) and opaque. */
  method FillFrames(levels: seq<seq<int>>, nFrames: nat, H: nat, W: nat, checkerH: nat, checkerW: nat)
    returns (frames: array<int>)
    requires W > 0 && checkerH > 0 && checkerW > 0
    requires |levels| == CheckerCount(H, W, checkerH, checkerW)
    requires forall q | 0 <= q < |levels| :: |levels[q]| == nFrames
    ensures fresh(frames) && frames.Length == nFrames * (H * W) * 4
    ensures forall p, n | 0 <= p < H * W && 0 <= n < nFrames ::
      Painted(frames[..], levels, nFrames, H, W, checkerH, checkerW, p, n)
  {
    var nPixels := H * W;
    frames := new int[nFrames * nPixels * 4](_ => 0);
    for p := 0 to nPixels
      invariant forall p', n' | 0 <= p' < p && 0 <= n' < nFrames ::
        Painted(frames[..], levels, nFrames, H, W, checkerH, checkerW, p', n')
    {
      PaintFrames(frames, levels, nFrames, H, W, checkerH, checkerW, p);
    }
  }

  /** Where channel `c` of pixel `p` sits within one frame. */
  function PixelIndex(p: nat, c: nat): nat {
    p * 4 + c
  }

  /** The bytes of frame `n` form one slice of the buffer, and pixel `p`
      of that slice is pixel `p` of frame `n` in the buffer. */
  lemma {:induction false} FrameSlice(buf: seq<int>, n: nat, nFrames: nat, nPixels: nat)
    requires |buf| == nFrames * nPixels * 4 && n < nFrames
    ensures n * nPixels * 4 + nPixels * 4 == (n + 1) * nPixels * 4 <= |buf|
    ensures forall p, c | 0 <= p < nPixels && 0 <= c < 4 ::
      && FrameIndex(p, n, c, nPixels) < |buf|
      && buf[n * nPixels * 4 .. (n + 1) * nPixels * 4][PixelIndex(p, c)] == buf[FrameIndex(p, n, c, nPixels)]
  {
    assert (n + 1) * nPixels == n * nPixels + nPixels;
    MulMonotone(n + 1, nFrames, nPixels);
  }

  /** `out` holds, frame by frame, the slices of `buf`: each `nPixels`
      RGBA pixels, pixel `p` of frame `n` being pixel `p` of frame `n` in
      the buffer. */
  predicate Sliced(out: seq<seq<int>>, buf: seq<int>, nPixels: nat) {
    forall n | 0 <= n < |out| ::
      && |out[n]| == nPixels * 4
      && forall p, c | 0 <= p < nPixels && 0 <= c < 4 ::
           && FrameIndex(p, n, c, nPixels) < |buf|
           && out[n][PixelIndex(p, c)] == buf[FrameIndex(p, n, c, nPixels)]
  }

  /** The frame loop: frame `n` is the slice of the buffer from
      `n * nPixels * 4` up to `(n + 1) * nPixels * 4`. Turning a slice into
      a canvas is not modelled. */
  method YieldFrames(frames: array<int>, nFrames: nat, nPixels: nat) returns (out: seq<seq<int>>)
    requires frames.Length == nFrames * nPixels * 4
    ensures |out| == nFrames && Sliced(out, frames[..], nPixels)
  {
    out := [];
    for n := 0 to nFrames
      invariant |out| == n && Sliced(out, frames[..], nPixels)
    {
      FrameSlice(frames[..], n, nFrames, nPixels);
      var frame := frames[n * nPixels * 4 .. (n + 1) * nPixels * 4];
      out := out + [frame];
    }
  }

  /** Pixel `p`'s red level in every frame, in frame order. */
  function Trace(out: seq<seq<int>>, p: nat): (t: seq<int>)
    requires forall n | 0 <= n < |out| :: PixelIndex(p, 0) < |out[n]|
    ensures |t| == |out|
  {
    seq(|out|, n requires 0 <= n < |out| => out[n][PixelIndex(p, 0)])
  }

  /** Pixel `p` is grey and opaque in every frame. */
  predicate Grey(out: seq<seq<int>>, p: nat)
    requires forall n | 0 <= n < |out| :: p * 4 + 4 <= |out[n]|
  {
    forall n | 0 <= n < |out| ::
      && out[n][PixelIndex(p, 1)] == out[n][PixelIndex(p, 0)]
      && out[n][PixelIndex(p, 2)] == out[n][PixelIndex(p, 0)]
      && out[n][PixelIndex(p, 3)] == WHITE_LEVEL
  }

  /** Over the yielded frames, a pixel is grey and opaque and follows the
      levels of its checker. */
  lemma {:induction false} PixelOverTime(buf: seq<int>, out: seq<seq<int>>, levels: seq<seq<int>>, nFrames: nat,
                      H: nat, W: nat, checkerH: nat, checkerW: nat, p: nat) returns (q: nat)
    requires W > 0 && checkerH > 0 && checkerW > 0
    requires |levels| == CheckerCount(H, W, checkerH, checkerW)
    requires forall q' | 0 <= q' < |levels| :: |levels[q']| == nFrames
    requires p < H * W
    requires forall n | 0 <= n < nFrames :: Painted(buf, levels, nFrames, H, W, checkerH, checkerW, p, n)
    requires |out| == nFrames && Sliced(out, buf, H * W)
    ensures q == Pix2Checker(p, H, W, checkerH, checkerW) && q < |levels|
    ensures Grey(out, p) && Trace(out, p) == levels[q]
  {
    Pix2CheckerBound(p, H, W, checkerH, checkerW);
    q := Pix2Checker(p, H, W, checkerH, checkerW);
    forall n | 0 <= n < nFrames
      ensures out[n][PixelIndex(p, 0)] == levels[q][n]
      ensures out[n][PixelIndex(p, 1)] == out[n][PixelIndex(p, 0)]
      ensures out[n][PixelIndex(p, 2)] == out[n][PixelIndex(p, 0)]
      ensures out[n][PixelIndex(p, 3)] == WHITE_LEVEL
    {
      assert Painted(buf, levels, nFrames, H, W, checkerH, checkerW, p, n);
    }
  }

  /** The whole pre-render function: `None` where it throws (an odd frame
      count); otherwise `nFrames` frames of `H * W` RGBA pixels, every
      pixel grey and opaque, black in half of the frames and white in the
      other half, so that its mean level over time is half of white. */
  method PreRender(r: Random.DeterministicRandom, nFrames: nat, H: nat, W: nat, checkerH: nat, checkerW: nat)
    returns (result: Option<seq<seq<int>>>)
    requires W > 0 && checkerH > 0 && checkerW > 0
    requires forall d: nat, range: nat | 2 <= range <= nFrames :: r.Accepts(d, range)
    modifies r
    ensures result.Some? <==> nFrames % 2 == 0
    ensures result.Some? ==>
      && |result.value| == nFrames
      && (forall n | 0 <= n < nFrames :: |result.value[n]| == H * W * 4)
      && forall p | 0 <= p < H * W :: Grey(result.value, p) && Balanced(Trace(result.value, p))
  {
    SinglePixelBalanced(nFrames);
    var single := SinglePixel(nFrames);
    if single.None? {
      return None;
    }
    var levels := CheckerLevels(r, single.value, H, W, checkerH, checkerW);
    var frames := FillFrames(levels, nFrames, H, W, checkerH, checkerW);
    var out := YieldFrames(frames, nFrames, H * W);
    FramesBalanced(frames[..], out, levels, single.value, nFrames, H, W, checkerH, checkerW);
    result := Some(out);
  }

  /** The levels of every checker: `singlePixel` copied into an array and
      shuffled once per checker, each copy a permutation of it. */
  method CheckerLevels(r: Random.DeterministicRandom, single: seq<int>, H: nat, W: nat, checkerH: nat, checkerW: nat)
    returns (levels: seq<seq<int>>)
    requires W > 0 && checkerH > 0 && checkerW > 0
    requires forall d: nat, range: nat | 2 <= range <= |single| :: r.Accepts(d, range)
    modifies r
    ensures |levels| == CheckerCount(H, W, checkerH, checkerW)
    ensures forall q | 0 <= q < |levels| :: |levels[q]| == |single| && multiset(levels[q]) == multiset(single)
  {
    var singlePixel := new int[|single|](i => if 0 <= i < |single| then single[i] else 0);
    assert singlePixel[..] == single;
    var checkersPerRow := CeilDiv(W, checkerW);
    var checkersPerCol := CeilDiv(H, checkerH);
    var nCheckers := checkersPerRow * checkersPerCol;
    levels := ShuffledCopies(r, singlePixel, nCheckers);
  }

  /** Frames sliced from a buffer painted with permutations of a balanced
      level sequence are grey and balanced at every pixel. */
  lemma {:induction false} FramesBalanced(buf: seq<int>, out: seq<seq<int>>, levels: seq<seq<int>>, single: seq<int>,
                                          nFrames: nat, H: nat, W: nat, checkerH: nat, checkerW: nat)
    requires W > 0 && checkerH > 0 && checkerW > 0
    requires |levels| == CheckerCount(H, W, checkerH, checkerW)
    requires forall q | 0 <= q < |levels| :: |levels[q]| == nFrames && multiset(levels[q]) == multiset(single)
    requires Balanced(single)
    requires forall p, n | 0 <= p < H * W && 0 <= n < nFrames ::
      Painted(buf, levels, nFrames, H, W, checkerH, checkerW, p, n)
    requires |out| == nFrames && Sliced(out, buf, H * W)
    ensures forall p | 0 <= p < H * W :: Grey(out, p) && Balanced(Trace(out, p))
  {
    forall p | 0 <= p < H * W
      ensures Grey(out, p) && Balanced(Trace(out, p))
    {
      var q := PixelOverTime(buf, out, levels, nFrames, H, W, checkerH, checkerW, p);
      PermutationBalanced(single, levels[q]);
    }
  }

  // ---------------------------------------------------------------------------
  // Pre-render jobs

  const BINARY_NOISE_DURATION: nat := 5 * 60
  const HZ: nat := 5
  const BINARY_NOISE_NFRAMES: nat := HZ * BINARY_NOISE_DURATION
  const CHUNK_SIZE: nat := 50
  const CHECKER_H: nat := 40
  const CHECKER_W: nat := 40
  const RENDER_SEED: int := 242424
  const VERSION: string := "binary_noise_v1"

  /** The arguments of one pre-render job: its frame count, its seed and
      the checker size. */
  datatype Job = Job(nFrames: nat, seed: int, checkerH: nat, checkerW: nat)

  /** `preRenderArgs`: the job count, the jobs, the frame each job starts
      at, and the cache version. */
  datatype PreRenderArgs = PreRenderArgs(nJobs: nat, jobs: seq<Job>, startIdx: seq<nat>, version: string)

  /** The frame count of job `i`: the remainder for the last job when the
      frames do not split evenly, a whole chunk otherwise. */
  function JobFrames(total: nat, chunkSize: nat, i: nat): nat
    requires chunkSize > 0
  {
    var nJobs := CeilDiv(total, chunkSize);
    var remainder := total % chunkSize;
    if i == nJobs - 1 && remainder != 0 then remainder else chunkSize
  }

  /** Frames of the first `k` jobs. */
  function FramesBefore(total: nat, chunkSize: nat, k: nat): nat
    requires chunkSize > 0
  {
    if k == 0 then 0 else FramesBefore(total, chunkSize, k - 1) + JobFrames(total, chunkSize, k - 1)
  }

  /** The job loop: `nJobs` jobs, job `i` seeded `renderSeed + i` and
      starting at frame `i * chunkSize`. */
  method ChunkJobs(total: nat, chunkSize: nat, renderSeed: int, checkerH: nat, checkerW: nat)
    returns (args: PreRenderArgs)
    requires chunkSize > 0
    ensures args.nJobs == CeilDiv(total, chunkSize) == |args.jobs| == |args.startIdx|
    ensures args.version == VERSION
    ensures forall i | 0 <= i < args.nJobs ::
      && args.jobs[i] == Job(JobFrames(total, chunkSize, i), renderSeed + i, checkerH, checkerW)
      && args.startIdx[i] == i * chunkSize
  {
    var nJobs := CeilDiv(total, chunkSize);
    var remainder := total % chunkSize;
    var jobs: seq<Job> := [];
    var startIdxs: seq<nat> := [];
    var startIdx := 0;
    for i := 0 to nJobs
      invariant |jobs| == |startIdxs| == i
      invariant startIdx == i * chunkSize
      invariant forall i' | 0 <= i' < i ::
        && jobs[i'] == Job(JobFrames(total, chunkSize, i'), renderSeed + i', checkerH, checkerW)
        && startIdxs[i'] == i' * chunkSize
    {
      if i == nJobs - 1 && remainder != 0 {
        jobs := jobs + [Job(remainder, renderSeed + i, checkerH, checkerW)];
      } else {
        jobs := jobs + [Job(chunkSize, renderSeed + i, checkerH, checkerW)];
      }
      startIdxs := startIdxs + [startIdx];
      startIdx := startIdx + chunkSize;
    }
    args := PreRenderArgs(nJobs, jobs, startIdxs, VERSION);
  }

  /** Before the last job, every job is a whole chunk. */
  lemma {:induction false} FramesBeforeWhole(total: nat, chunkSize: nat, k: nat)
    requires chunkSize > 0 && k < CeilDiv(total, chunkSize)
    ensures FramesBefore(total, chunkSize, k) == k * chunkSize
  {
    if k > 0 {
      FramesBeforeWhole(total, chunkSize, k - 1);
    }
  }

  /** `CeilDiv` is the quotient when the division is exact and one more
      otherwise. */
  lemma {:induction false} CeilDivExact(a: nat, b: nat)
    requires b > 0
    ensures a % b == 0 ==> CeilDiv(a, b) == a / b
    ensures a % b != 0 ==> CeilDiv(a, b) == a / b + 1
  {
    var q, r := a / b, a % b;
    if r == 0 {
      DivModUnique(a + b - 1, b, q, b - 1);
    } else {
      assert a + b - 1 == (q + 1) * b + (r - 1);
      DivModUnique(a + b - 1, b, q + 1, r - 1);
    }
  }

  /** Every job has between one frame and a whole chunk. */
  lemma {:induction false} JobFramesRange(total: nat, chunkSize: nat, i: nat)
    requires chunkSize > 0
    ensures 0 < JobFrames(total, chunkSize, i) <= chunkSize
  {
  }

  /** The jobs split the frames exactly: job `i` starts at frame
      `i * chunkSize` and has between one frame and a chunk. */
  lemma {:induction false} JobsTile(total: nat, chunkSize: nat)
    requires chunkSize > 0
    ensures forall i | 0 <= i < CeilDiv(total, chunkSize) ::
      FramesBefore(total, chunkSize, i) == i * chunkSize && 0 < JobFrames(total, chunkSize, i) <= chunkSize
  {
    forall i | 0 <= i < CeilDiv(total, chunkSize)
      ensures FramesBefore(total, chunkSize, i) == i * chunkSize && 0 < JobFrames(total, chunkSize, i) <= chunkSize
    {
      FramesBeforeWhole(total, chunkSize, i);
      JobFramesRange(total, chunkSize, i);
    }
  }

  /** The frame counts of the jobs sum to the total. */
  lemma {:induction false} JobsSum(total: nat, chunkSize: nat)
    requires chunkSize > 0
    ensures FramesBefore(total, chunkSize, CeilDiv(total, chunkSize)) == total
  {
    var n := CeilDiv(total, chunkSize);
    CeilDivExact(total, chunkSize);
    DivModParts(total, chunkSize);
    if n > 0 {
      FramesBeforeWhole(total, chunkSize, n - 1);
      MulPred(n, chunkSize);
    }
  }

  lemma {:induction false} DivModParts(a: nat, b: nat)
    requires b > 0
    ensures a == a / b * b + a % b
  {
  }

  lemma {:induction false} MulPred(n: nat, c: nat)
    requires n > 0
    ensures (n - 1) * c + c == n * c
  {
  }

  /** The program's own arguments: 1500 frames in 30 jobs of 50 frames. */
  lemma {:induction false} ProgramJobs()
    ensures CeilDiv(BINARY_NOISE_NFRAMES, CHUNK_SIZE) == 30
    ensures forall i | 0 <= i < 30 :: JobFrames(BINARY_NOISE_NFRAMES, CHUNK_SIZE, i) == CHUNK_SIZE
  {
  }
}

