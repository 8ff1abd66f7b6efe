/**
 * Fixed-width integer arithmetic of the two code bases, written out over
 * Dafny's unbounded integers: C's truncating division, the wrap-around of
 * uint8_t, int16_t, int32_t and uint32_t, the big-endian byte order of
 * 32-bit words, and the Option wrapper used for values that may be missing.
 */
module CInt {

  datatype Option<T> = None | Some(value: T)

  type byte = b: int | 0 <= b < 0x100

  /** Values of a C int32_t. */
  type int32 = x: int | -0x8000_0000 <= x < 0x8000_0000

  const TWO8: int := 0x100
  const TWO15: int := 0x8000
  const TWO16: int := 0x1_0000
  const TWO31: int := 0x8000_0000
  const TWO32: int := 0x1_0000_0000

  function Abs(x: int): (r: int)
    ensures r >= 0 && (r == x || r == -x)
  {
    if x < 0 then -x else x
  }

  /** C99 integer division: the quotient is truncated towards zero. */
  function Quot(a: int, b: int): (q: int)
    requires b != 0
    ensures Abs(q) == Abs(a) / Abs(b)
    ensures q > 0 ==> (a > 0) == (b > 0)
    ensures q < 0 ==> (a > 0) != (b > 0)
  {
    var x := if a < 0 then -a else a;
    var y := if b < 0 then -b else b;
    DivNonneg(x, y);
    if (a < 0) == (b < 0) then x / y else -(x / y)
  }

  lemma DivNonneg(x: int, y: int)
    requires x >= 0 && y > 0
    ensures x / y >= 0 && (x == 0 ==> x / y == 0)
  {
  }

  /** Storing an integer into a uint8_t keeps it modulo 2^8. */
  function U8(x: int): (r: byte)
    ensures (x - r) % TWO8 == 0
    ensures 0 <= x < TWO8 ==> r == x
  {
    x % TWO8
  }

  /** Storing an integer into a uint32_t keeps it modulo 2^32. */
  function U32(x: int): (r: int)
    ensures 0 <= r < TWO32
    ensures (x - r) % TWO32 == 0
    ensures 0 <= x < TWO32 ==> r == x
  {
    x % TWO32
  }

  /** Two's-complement reading of an integer stored into an int32_t. */
  function I32(x: int): (r: int)
    ensures -TWO31 <= r < TWO31
    ensures (x - r) % TWO32 == 0
    ensures -TWO31 <= x < TWO31 ==> r == x
  {
    (x + TWO31) % TWO32 - TWO31
  }

  /** Two's-complement reading of an integer stored into an int16_t. */
  function I16(x: int): (r: int)
    ensures -TWO15 <= r < TWO15
    ensures (x - r) % TWO16 == 0
    ensures -TWO15 <= x < TWO15 ==> r == x
  {
    (x + TWO15) % TWO16 - TWO15
  }

  /** Two's-complement reading of a byte cast to int8_t. */
  function I8(x: byte): (r: int)
    ensures -0x80 <= r < 0x80
    ensures (x - r) % TWO8 == 0
  {
    if x < 0x80 then x else x - TWO8
  }

  /**
   * The four bytes of the 32-bit pattern of `v`, most significant first;
   * joined again by FromBigEndian32 they give the pattern back.
   */
  function BigEndian32(v: int): (r: seq<byte>)
    ensures |r| == 4
    ensures FromBigEndian32(r) == U32(v)
  {
    var u := U32(v);
    assert u == (u / 0x100) * 0x100 + u % 0x100;
    assert u / 0x100 == (u / 0x1_0000) * 0x100 + (u / 0x100) % 0x100;
    assert u / 0x1_0000 == (u / 0x100_0000) * 0x100 + (u / 0x1_0000) % 0x100;
    [u / 0x100_0000, u / 0x1_0000 % TWO8, u / 0x100 % TWO8, u % TWO8]
  }

  /**
   * Value of four bytes read most significant first, as the GUI's
   * `raw[0] << 24 | raw[1] << 16 | raw[2] << 8 | raw[3]` computes it: the
   * shifted bytes occupy disjoint bit ranges, so the or is their sum, an
   * unsigned 32-bit value.
   */
  function FromBigEndian32(b: seq<byte>): (r: int)
    requires |b| == 4
    ensures 0 <= r < TWO32
  {
    b[0] as int * 0x100_0000 + b[1] as int * 0x1_0000 + b[2] as int * 0x100 + b[3] as int
  }

  /** Splitting the value of four bytes into its big-endian bytes gives the four bytes back. */
  lemma FromBigEndianRoundTrip(b: seq<byte>)
    requires |b| == 4
    ensures BigEndian32(FromBigEndian32(b)) == b
  {
    var b0: int, b1: int, b2: int, b3: int := b[0], b[1], b[2], b[3];
    var u := FromBigEndian32(b);
    assert U32(u) == u;
    assert u % TWO8 == b3;
    assert u / 0x100 == b0 * 0x1_0000 + b1 * 0x100 + b2;
    assert u / 0x1_0000 == b0 * 0x100 + b1;
    assert u / 0x100_0000 == b0;
  }

  /** A signed 32-bit value survives the round trip through its unsigned byte pattern. */
  lemma SignedFromUnsigned(v: int)
    requires -TWO31 <= v < TWO31
    ensures I32(U32(v)) == v
  {
  }
}
