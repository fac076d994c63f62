/** Fixed-width integer behaviour of Go that the contract depends on.
    Dafny integers are unbounded, so every narrowing conversion (`int32(x)`)
    and every fixed-width addition of the contract is written out through the
    two's-complement wrap functions below. */
module GoInts {

  const Two32: int := 0x1_0000_0000
  const Two64: int := 0x1_0000_0000_0000_0000

  const MinInt32: int := -0x8000_0000
  const MaxInt32: int := 0x7FFF_FFFF
  const MinInt64: int := -0x8000_0000_0000_0000
  const MaxInt64: int := 0x7FFF_FFFF_FFFF_FFFF
  const MaxUint64: int := 0xFFFF_FFFF_FFFF_FFFF

  type Int32 = x: int | MinInt32 <= x <= MaxInt32
  type Int64 = x: int | MinInt64 <= x <= MaxInt64
  type Uint64 = x: int | 0 <= x <= MaxUint64

  /** Go's `int32(x)` for any integer x, and the result of an int32 addition:
      the unique int32 congruent to x modulo 2^32. */
  function Wrap32(x: int): (r: Int32)
    ensures (x - r) % Two32 == 0
    ensures MinInt32 <= x <= MaxInt32 ==> r == x
  {
    (x - MinInt32) % Two32 + MinInt32
  }

  /** Go's `int64(x)` and 64-bit `int` addition: the unique int64 congruent
      to x modulo 2^64. */
  function Wrap64(x: int): (r: Int64)
    ensures (x - r) % Two64 == 0
    ensures MinInt64 <= x <= MaxInt64 ==> r == x
  {
    (x - MinInt64) % Two64 + MinInt64
  }

  lemma MultiplesOf32(a: int, b: int)
    requires a % Two32 == 0 && b % Two32 == 0
    ensures (a + b) % Two32 == 0 && (a - b) % Two32 == 0
  {
    var p, q := a / Two32, b / Two32;
    assert a == Two32 * p;
    assert b == Two32 * q;
    assert a + b == Two32 * (p + q);
    assert a - b == Two32 * (p - q);
  }

  /** An int32 congruent to x modulo 2^32 is Wrap32(x): the wrap is determined
      by congruence and range alone. */
  lemma Wrap32Unique(x: int, r: int)
    requires MinInt32 <= r <= MaxInt32
    requires (x - r) % Two32 == 0
    ensures Wrap32(x) == r
  {
    var w := Wrap32(x);
    MultiplesOf32(x - w, x - r);
    assert (r - w) % Two32 == 0;
    var k := (r - w) / Two32;
    assert r - w == Two32 * k;
    assert -Two32 < r - w < Two32;
    assert k == 0;
  }

  /** MaxInt64 is congruent to -1 modulo 2^32, so `int32(MaxInt64)` is -1. */
  lemma MaxInt64TruncatesToMinusOne()
    ensures Wrap32(MaxInt64) == -1
  {
    assert MaxInt64 - (-1) == Two32 * 0x8000_0000;
    assert (MaxInt64 - (-1)) % Two32 == 0;
    Wrap32Unique(MaxInt64, -1);
  }
}
