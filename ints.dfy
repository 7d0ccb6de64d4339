/** The fixed-width integers of the native module and the conversions between
    them that the code performs implicitly. */
module Ints {
  const TWO_32: int := 0x1_0000_0000
  const TWO_31: int := 0x8000_0000
  const TWO_64: int := 0x1_0000_0000_0000_0000

  type uint32 = x: int | 0 <= x < 0x1_0000_0000
  type int32 = x: int | -0x8000_0000 <= x < 0x8000_0000
  type uint64 = x: int | 0 <= x < 0x1_0000_0000_0000_0000

  /** Conversion of any integer to `uint32_t`: reduction modulo 2^32. */
  function ToUint32(x: int): (r: uint32)
    ensures 0 <= x < TWO_32 ==> r == x
  {
    x % TWO_32
  }

  /** Conversion of a `uint32_t` to `int32_t`: values from 2^31 up wrap to negative. */
  function ToInt32(x: uint32): (r: int32)
    ensures (r - x) % TWO_32 == 0
    ensures r < 0 <==> x >= TWO_31
  {
    if x < TWO_31 then x else x - TWO_32
  }

  /** Adding to a reduced value and reducing again is reducing the sum. */
  lemma {:induction false} ToUint32Add(x: int, y: int)
    ensures ToUint32(ToUint32(x) + y) == ToUint32(x + y)
  {
    var q := x / TWO_32;
    assert x == q * TWO_32 + ToUint32(x);
    assert x + y == q * TWO_32 + (ToUint32(x) + y);
  }

  /** Reading an `int32_t` back as `uint32_t` undoes `ToInt32`. */
  lemma {:induction false} Int32RoundTrip(x: uint32)
    ensures ToUint32(ToInt32(x)) == x
  {
  }

  lemma {:induction false} MulAtLeast(d: nat, k: nat)
    requires k >= 1
    ensures d * k >= d
  {
    if k > 1 {
      MulAtLeast(d, k - 1);
      assert d * k == d * (k - 1) + d;
    }
  }

  /** Euclidean division is unique: a quotient and a remainder in range are
      the ones `/` and `%` compute. */
  lemma {:induction false} DivModUnique(x: int, d: int, q: int, r: int)
    requires d > 0 && 0 <= r < d && x == q * d + r
    ensures x / d == q && x % d == r
  {
    var q', r' := x / d, x % d;
    assert x == d * q' + r';
    if q > q' {
      MulAtLeast(d, q - q');
    } else if q < q' {
      MulAtLeast(d, q' - q);
    }
  }
}
