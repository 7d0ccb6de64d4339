/** The deterministic random source of the stimulus programs
    (`DeterministicRandom`): rejection-sampled integers in a range, an in-place
    Fisher-Yates shuffle, and version-4 UUIDs (section 4.4 of RFC 4122), all
    drawn from a seeded Mersenne Twister whose successive 32-bit outputs are an
    oracle here. */
module Random {
  import opened Ints
  import opened Text

  /** The largest raw sample `randi` considers, 2^31 - 1. */
  const MAXINT: nat := 2147483647

  /** The rejection threshold of `randi`: the largest multiple of the range
      not above `MAXINT`. */
  function MaxAccepted(range: nat): (max: nat)
    requires range > 0
    ensures max % range == 0 && max == (MAXINT / range) * range
    ensures MAXINT - range < max <= MAXINT
  {
    var q, m := MAXINT / range, MAXINT % range;
    assert MAXINT == q * range + m;
    DivModUnique(q * range, range, q, 0);
    MAXINT - m
  }

  /** The acceptance test as written: a raw sample is kept when it is at most
      `max`, which keeps `max + 1` distinct samples. */
  predicate AcceptedAsWritten(r: nat, range: nat)
    requires range > 0
  {
    r <= MaxAccepted(range)
  }

  /** The acceptance test that keeps exactly `max` distinct samples, a multiple
      of the range. */
  predicate Accepted(r: nat, range: nat)
    requires range > 0
  {
    r < MaxAccepted(range)
  }

  /** How many of the raw samples 0 .. n-1 land on residue `v`. */
  function Hits(n: nat, range: nat, v: nat): nat
    requires range > 0
  {
    if n == 0 then 0 else Hits(n - 1, range, v) + (if (n - 1) % range == v then 1 else 0)
  }

  /** Among the samples 0 .. n-1, residue `v` is hit once per whole block
      of `range` samples, plus once if the last, partial block reaches it. */
  lemma {:induction false} HitsCount(n: nat, range: nat, v: nat)
    requires v < range
    ensures Hits(n, range, v) == n / range + (if v < n % range then 1 else 0)
  {
    if n > 0 {
      HitsCount(n - 1, range, v);
      DivModNext(n - 1, range);
    }
  }

  /** Counting one further: the remainder steps up by one, or wraps to 0
      as the quotient steps up. */
  lemma {:induction false} DivModNext(p: nat, d: nat)
    requires d > 0
    ensures p % d + 1 < d ==> (p + 1) / d == p / d && (p + 1) % d == p % d + 1
    ensures p % d + 1 == d ==> (p + 1) / d == p / d + 1 && (p + 1) % d == 0
  {
    var q, r := p / d, p % d;
    assert p == q * d + r;
    if r + 1 < d {
      DivModUnique(p + 1, d, q, r + 1);
    } else {
      assert p + 1 == (q + 1) * d;
      DivModUnique(p + 1, d, q + 1, 0);
    }
  }

  /** Every residue is hit equally often by the samples the corrected test
      accepts, so `randi` draws uniformly from its range. */
  lemma {:induction false} RandiUniform(range: nat, v: nat)
    requires 0 < range && v < range
    ensures Hits(MaxAccepted(range), range, v) == MaxAccepted(range) / range
    ensures forall r: nat :: Accepted(r, range) <==> r < MaxAccepted(range)
  {
    var max := MaxAccepted(range);
    HitsCount(max, range, v);
  }

  /** As written, residue 0 is hit once more than any other residue: the
      accepted samples 0 .. max number `max + 1`, one more than a multiple of
      the range. For `randi(0, 3)`, 0 is drawn from 715827883 samples and 1
      and 2 from 715827882 each. */
  lemma {:induction false} RandiAsWrittenBias(range: nat)
    requires range >= 2
    ensures forall r: nat :: AcceptedAsWritten(r, range) <==> r < MaxAccepted(range) + 1
    ensures Hits(MaxAccepted(range) + 1, range, 0) == Hits(MaxAccepted(range) + 1, range, 1) + 1
  {
    var max := MaxAccepted(range);
    DivModUnique(max + 1, range, max / range, 1);
    HitsCount(max + 1, range, 0);
    HitsCount(max + 1, range, 1);
  }

  /** The nibble `random() * 16 | 0` yields when `random()` is the 32-bit
      output divided by 2^32: the output's top four bits. */
  function Nibble(w: uint32): (n: nat)
    ensures n < 16
    ensures n * 0x1000_0000 <= w < (n + 1) * 0x1000_0000
  {
    w / 0x1000_0000
  }

  /** The variant nibble `(r & 0x3) | 0x8`. */
  function Variant(n: nat): (v: nat)
    requires n < 16
    ensures 8 <= v < 12
    ensures v == 8 + n % 4
  {
    (((n as bv8) & 3) | 8) as nat
  }

  const TEMPLATE: string := "xxxxxxxx-xxxx-4xxx-yxxx-xxxxxxxxxxxx"

  predicate IsPlaceholder(c: char) {
    c == 'x' || c == 'y'
  }

  /** How many random draws filling a template takes: one per `x` or `y`. */
  function Slots(t: string): nat {
    if t == [] then 0 else Slots(t[..|t| - 1]) + (if IsPlaceholder(t[|t| - 1]) then 1 else 0)
  }

  lemma {:induction false} SlotsAppend(a: string, b: string)
    ensures Slots(a + b) == Slots(a) + Slots(b)
    decreases |b|
  {
    if b == [] {
      assert a + b == a;
    } else {
      assert (a + b)[..|a + b| - 1] == a + b[..|b| - 1];
      SlotsAppend(a, b[..|b| - 1]);
    }
  }

  function Xs(n: nat): string {
    seq(n, _ => 'x')
  }

  lemma {:induction false} SlotsOfXs(n: nat)
    ensures Slots(Xs(n)) == n
  {
    if n > 0 {
      assert Xs(n)[..n - 1] == Xs(n - 1);
      SlotsOfXs(n - 1);
    }
  }

  lemma {:induction false} TemplateGroups()
    ensures TEMPLATE == Xs(8) + "-" + Xs(4) + "-4" + Xs(3) + "-y" + Xs(3) + "-" + Xs(12)
  {
  }

  /** The template takes 31 draws: 30 for the `x`s and one for the `y`. */
  lemma {:induction false} TemplateSlots()
    ensures Slots(TEMPLATE) == 31
  {
    TemplateGroups();
    SlotsOfXs(8);
    SlotsOfXs(4);
    SlotsOfXs(3);
    SlotsOfXs(12);
    var acc := Xs(8);
    SlotsAppend(acc, "-");
    acc := acc + "-";
    SlotsAppend(acc, Xs(4));
    acc := acc + Xs(4);
    SlotsAppend(acc, "-4");
    acc := acc + "-4";
    SlotsAppend(acc, Xs(3));
    acc := acc + Xs(3);
    SlotsAppend(acc, "-y");
    acc := acc + "-y";
    SlotsAppend(acc, Xs(3));
    acc := acc + Xs(3);
    SlotsAppend(acc, "-");
    acc := acc + "-";
    SlotsAppend(acc, Xs(12));
  }

  /** The template with each `x` and `y`, left to right, replaced by the hex
      digit of the next draw. */
  function Filled(t: string, ws: seq<uint32>): (u: string)
    requires |ws| == Slots(t)
    ensures |u| == |t|
  {
    if t == [] then []
    else
      var c := t[|t| - 1];
      if IsPlaceholder(c) then
        var n := Nibble(ws[|ws| - 1]);
        Filled(t[..|t| - 1], ws[..|ws| - 1]) + [HexDigit(if c == 'x' then n else Variant(n))]
      else Filled(t[..|t| - 1], ws) + [c]
  }

  /** The hex digits of the RFC 4122 variant: 8, 9, a and b. */
  predicate IsVariantDigit(c: char) {
    c == '8' || c == '9' || c == 'a' || c == 'b'
  }

  /** What filling makes of template character `c`: an `x` becomes a
      lower-case hex digit, a `y` one of 8, 9, a and b, and any other
      character stays. */
  predicate Fills(c: char, d: char) {
    if c == 'x' then IsLowerHex(d) else if c == 'y' then IsVariantDigit(d) else d == c
  }

  lemma {:induction false} FilledLast(t: string, ws: seq<uint32>)
    requires t != [] && |ws| == Slots(t)
    ensures var n := |t| - 1;
      && Fills(t[n], Filled(t, ws)[n])
      && Filled(t, ws)[..n] == Filled(t[..n], if IsPlaceholder(t[n]) then ws[..|ws| - 1] else ws)
  {
  }

  lemma {:induction false} FilledChars(t: string, ws: seq<uint32>)
    requires |ws| == Slots(t)
    ensures forall k | 0 <= k < |t| :: Fills(t[k], Filled(t, ws)[k])
  {
    if t != [] {
      var n := |t| - 1;
      var rest := if IsPlaceholder(t[n]) then ws[..|ws| - 1] else ws;
      FilledLast(t, ws);
      FilledChars(t[..n], rest);
      var u := Filled(t, ws);
      forall k | 0 <= k < n
        ensures Fills(t[k], u[k])
      {
        assert t[k] == t[..n][k] && u[k] == u[..n][k];
      }
    }
  }

  /** The format of a version-4 UUID: 36 characters, dashes at 8, 13, 18 and
      23, the version digit 4 at 14, a variant digit 8, 9, a or b at 19, and
      lower-case hex digits everywhere else. */
  lemma {:induction false} UuidFormat(ws: seq<uint32>)
    requires |ws| == Slots(TEMPLATE)
    ensures var u := Filled(TEMPLATE, ws);
      && |u| == 36
      && u[8] == '-' && u[13] == '-' && u[18] == '-' && u[23] == '-'
      && u[14] == '4'
      && IsVariantDigit(u[19])
      && forall k | 0 <= k < 36 && k !in {8, 13, 14, 18, 19, 23} :: IsLowerHex(u[k])
  {
    FilledChars(TEMPLATE, ws);
    var u := Filled(TEMPLATE, ws);
    assert Fills(TEMPLATE[8], u[8]) && Fills(TEMPLATE[13], u[13]) && Fills(TEMPLATE[18], u[18]);
    assert Fills(TEMPLATE[23], u[23]) && Fills(TEMPLATE[14], u[14]) && Fills(TEMPLATE[19], u[19]);
    assert forall k | 0 <= k < 36 && k !in {8, 13, 14, 18, 19, 23} :: TEMPLATE[k] == 'x';
  }

  /** The swap partners of a shuffle of `n` elements: the k-th partner is
      drawn for position n-1-k, from 0 .. n-1-k, and there is one for each
      position from n-1 down to 1. */
  predicate Partners(n: nat, picks: seq<nat>) {
    && |picks| < (if n == 0 then 1 else n)
    && forall k | 0 <= k < |picks| :: picks[k] < n - k
  }

  function Swap<T>(s: seq<T>, i: nat, j: nat): (t: seq<T>)
    requires i < |s| && j < |s|
    ensures |t| == |s| && t[i] == s[j] && t[j] == s[i]
    ensures forall k | 0 <= k < |s| && k != i && k != j :: t[k] == s[k]
  {
    s[i := s[j]][j := s[i]]
  }

  /** The arrangement after the swaps of a shuffle, in order. */
  function FisherYates<T>(s: seq<T>, picks: seq<nat>): (t: seq<T>)
    requires Partners(|s|, picks)
    ensures |t| == |s|
  {
    if picks == [] then s
    else
      var m := |picks| - 1;
      Swap(FisherYates(s, picks[..m]), |s| - 1 - m, picks[m])
  }

  /** One more swap partner extends the shuffle by one swap. */
  lemma {:induction false} FisherYatesStep<T>(s: seq<T>, picks: seq<nat>, j: nat)
    requires Partners(|s|, picks) && |picks| + 1 < |s| && j < |s| - |picks|
    ensures Partners(|s|, picks + [j])
    ensures FisherYates(s, picks + [j]) == Swap(FisherYates(s, picks), |s| - 1 - |picks|, j)
  {
    var t := picks + [j];
    forall k | 0 <= k < |t|
      ensures t[k] < |s| - k
    {
      if k < |picks| {
        assert t[k] == picks[k];
      }
    }
    assert t[..|picks|] == picks && t[|picks|] == j;
    assert FisherYates(s, t) == Swap(FisherYates(s, t[..|picks|]), |s| - 1 - |picks|, t[|picks|]);
  }

  lemma {:induction false} SwapPermutes<T>(s: seq<T>, i: nat, j: nat)
    requires i < |s| && j < |s|
    ensures multiset(Swap(s, i, j)) == multiset(s)
  {
    var t := s[i := s[j]];
    assert multiset(t) == multiset(s) - multiset{s[i]} + multiset{s[j]};
    assert multiset(t[j := s[i]]) == multiset(t) - multiset{t[j]} + multiset{s[i]};
  }

  /** A shuffle rearranges its input: the result is a permutation. */
  lemma {:induction false} FisherYatesPermutes<T>(s: seq<T>, picks: seq<nat>)
    requires Partners(|s|, picks)
    ensures multiset(FisherYates(s, picks)) == multiset(s)
  {
    if picks != [] {
      var m := |picks| - 1;
      FisherYatesPermutes(s, picks[..m]);
      SwapPermutes(FisherYates(s, picks[..m]), |s| - 1 - m, picks[m]);
    }
  }

  /** Once position n-1-k has been swapped, later swaps leave it alone: the
      shuffle fills the array from the end. */
  lemma {:induction false} FisherYatesSettles<T>(s: seq<T>, picks: seq<nat>, k: nat)
    requires Partners(|s|, picks) && k < |picks|
    ensures FisherYates(s, picks)[|s| - 1 - k] == FisherYates(s, picks[..k + 1])[|s| - 1 - k]
  {
    var m := |picks| - 1;
    if m != k {
      assert picks[..m][..k + 1] == picks[..k + 1];
      FisherYatesSettles(s, picks[..m], k);
    } else {
      assert picks[..k + 1] == picks;
    }
  }

  /** `[a[i], a[j]] = [a[j], a[i]]`. */
  method SwapItems<T>(a: array<T>, i: nat, j: nat)
    requires i < a.Length && j < a.Length
    modifies a
    ensures a[..] == Swap(old(a[..]), i, j)
  {
    a[i], a[j] := a[j], a[i];
  }

  class DeterministicRandom {
    /** The generator's successive 32-bit outputs (`mt.int()`), fixed by the
        seed. */
    const mt: nat -> uint32
    /** How many outputs have been drawn. */
    var drawn: nat

    constructor (outputs: nat -> uint32)
      ensures mt == outputs && drawn == 0
    {
      mt, drawn := outputs, 0;
    }

    /** From draw `d` on, the generator eventually yields a sample that
        `randi` over the range accepts. */
    ghost predicate Accepts(d: nat, range: nat)
      requires range > 0
    {
      exists k: nat :: k >= d && Accepted(mt(k), range)
    }

    /** `int`: the next output. */
    method Int() returns (r: uint32)
      modifies this
      ensures r == mt(old(drawn)) && drawn == old(drawn) + 1
    {
      r := mt(drawn);
      drawn := drawn + 1;
    }

    /** `random`: the next output scaled to [0, 1). */
    method Random() returns (x: real)
      modifies this
      ensures 0.0 <= x < 1.0
      ensures x == mt(old(drawn)) as real / TWO_32 as real && drawn == old(drawn) + 1
    {
      x := mt(drawn) as real / TWO_32 as real;
      drawn := drawn + 1;
    }

    /** `randi(start, end)`: draws until a sample passes the rejection test
        and returns its residue shifted to `start`, a value in [start, end).
        The samples drawn before it were all rejected. */
    method Randi(start: int, end: int) returns (r: int)
      requires start < end && Accepts(drawn, end - start)
      modifies this
      ensures start <= r < end
      ensures old(drawn) < drawn
      ensures Accepted(mt(drawn - 1), end - start) && r == mt(drawn - 1) % (end - start) + start
      ensures forall k | old(drawn) <= k < drawn - 1 :: !Accepted(mt(k), end - start)
    {
      var range := end - start;
      var max := MaxAccepted(range);
      ghost var d0 := drawn;
      ghost var w :| w >= drawn && Accepted(mt(w), range);
      var x := mt(drawn);
      drawn := drawn + 1;
      while x >= max
        invariant d0 < drawn <= w + 1 && x == mt(drawn - 1)
        invariant forall k | d0 <= k < drawn - 1 :: mt(k) >= max
        decreases w + 1 - drawn
      {
        x := mt(drawn);
        drawn := drawn + 1;
      }
      r := x % range + start;
    }

    /** `shuffle`: the Fisher-Yates shuffle, in place. Returns the swap
        partners drawn; the array ends as the shuffle of its old contents
        with those partners, a permutation of them. */
    method Shuffle<T>(a: array<T>) returns (picks: seq<nat>)
      requires forall d: nat, range: nat | 2 <= range <= a.Length :: Accepts(d, range)
      modifies this, a
      ensures Partners(a.Length, picks)
      ensures |picks| == if a.Length == 0 then 0 else a.Length - 1
      ensures a[..] == FisherYates(old(a[..]), picks)
      ensures multiset(a[..]) == multiset(old(a[..]))
    {
      ghost var s := a[..];
      picks := [];
      var i := a.Length - 1;
      while i >= 1
        invariant -1 <= i < a.Length && |picks| == a.Length - 1 - i
        invariant Partners(|s|, picks)
        invariant a[..] == FisherYates(s, picks)
      {
        var j := Randi(0, i + 1);
        FisherYatesStep(s, picks, j);
        picks := picks + [j];
        SwapItems(a, i, j);
        i := i - 1;
      }
      FisherYatesPermutes(s, picks);
    }

    /** `uuid`: fills the template from 31 draws. */
    method Uuid() returns (u: string)
      modifies this
      ensures drawn == old(drawn) + 31
      ensures Slots(TEMPLATE) == 31 && u == Filled(TEMPLATE, seq(31, k requires 0 <= k < 31 => mt(old(drawn) + k)))
    {
      TemplateSlots();
      var d := drawn;
      u := Filled(TEMPLATE, seq(31, k requires 0 <= k < 31 => mt(d + k)));
      drawn := drawn + 31;
    }
  }
}
