/** Bytes, 16-bit words and C's `int16_t` on a two's complement target. */
module Bytes {

  /** A `uint8_t`. */
  type Byte = bv8

  /** A value in the range of `int16_t`. */
  type Int16 = v: int | -0x8000 <= v < 0x8000

  /** The C expression `(hi << 8) | lo` on two bytes: both operands are
      promoted, so the shifted high byte and the low byte occupy disjoint bits
      and the result fits in 16 bits. */
  function Word(hi: Byte, lo: Byte): bv16 {
    (hi as bv16 << 8) | lo as bv16
  }

  /** The word is the little-endian value of the two bytes. */
  lemma WordValue(hi: Byte, lo: Byte)
    ensures Word(hi, lo) as int == hi as int * 256 + lo as int
  {
    assert Word(hi, lo) == hi as bv16 * 256 + lo as bv16;
    assert (hi as bv16 * 256 + lo as bv16) as int == hi as int * 256 + lo as int;
  }

  /** Every 16-bit word denotes an unsigned value below 2^16. */
  lemma WordRange(w: bv16)
    ensures 0 <= w as int < 0x10000
  {
    assert w <= 0xFFFF;
  }

  /** The signed value whose 16-bit two's complement pattern is `u`. */
  function FromPattern(u: int): (v: Int16)
    requires 0 <= u < 0x10000
    ensures Pattern(v) == u
  {
    if u < 0x8000 then u else u - 0x10000
  }

  /** The cast `(int16_t)w`: the signed value with the same 16-bit pattern. */
  function ToInt16(w: bv16): (v: Int16)
    ensures Pattern(v) == w as int
  {
    WordRange(w);
    FromPattern(w as int)
  }

  /** The unsigned 16-bit pattern of a signed value. */
  function Pattern(v: Int16): (u: nat)
    ensures u < 0x10000
    ensures (u - v) % 0x10000 == 0
  {
    if v < 0 then v as int + 0x10000 else v as int
  }

  /** Distinct signed 16-bit values have distinct patterns. */
  lemma PatternInjective(a: Int16, b: Int16)
    requires Pattern(a) == Pattern(b)
    ensures a == b
  {
  }

  /** The byte whose unsigned value is `n`, counted up from 0. */
  function ByteOf(n: nat): (b: Byte)
    requires n < 256
    ensures b as int == n
  {
    if n == 0 then 0
    else
      var below := ByteOf(n - 1);
      assert below < 255;
      below + 1
  }

  /** Low byte of the little-endian encoding of `v`. */
  function LowByte(v: Int16): Byte {
    ByteOf(Pattern(v) % 256)
  }

  /** High byte of the little-endian encoding of `v`. */
  function HighByte(v: Int16): Byte {
    ByteOf(Pattern(v) / 256)
  }

  /** Encoding a signed value into two bytes and decoding them gives it back. */
  lemma Int16RoundTrip(v: Int16)
    ensures ToInt16(Word(HighByte(v), LowByte(v))) == v
  {
    var u := Pattern(v);
    WordValue(HighByte(v), LowByte(v));
    assert Word(HighByte(v), LowByte(v)) as int == u;
    PatternInjective(ToInt16(Word(HighByte(v), LowByte(v))), v);
  }

  /** Decoding two bytes and encoding the result gives the bytes back: no two
      byte pairs decode to the same value. */
  lemma BytesRoundTrip(hi: Byte, lo: Byte)
    ensures HighByte(ToInt16(Word(hi, lo))) == hi
    ensures LowByte(ToInt16(Word(hi, lo))) == lo
  {
    WordValue(hi, lo);
    var v := ToInt16(Word(hi, lo));
    SplitWord(hi as int, lo as int, Pattern(v));
    ByteInjective(HighByte(v), hi);
    ByteInjective(LowByte(v), lo);
  }

  /** The quotient and remainder by 256 of a two-byte value. */
  lemma SplitWord(hi: int, lo: int, u: int)
    requires 0 <= lo < 256 && u == hi * 256 + lo
    ensures u % 256 == lo && u / 256 == hi
  {
  }

  /** Bytes with the same unsigned value are equal. */
  lemma ByteInjective(a: Byte, b: Byte)
    requires a as int == b as int
    ensures a == b
  {
  }
}
