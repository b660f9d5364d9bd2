/**
 * Bytes, 16-bit words and the integer views the INA219 driver takes of them:
 * the big-endian byte split of a register write, the big-endian join of a
 * register read, and the signed 16-bit reading of a joined value.
 *
 * The configuration register is a bit-vector word (its setters are bitwise);
 * bytes on the bus and the values the read path computes with are integers,
 * as they are in both the Python and the C++ source.
 */
module Bits {

  /** A configuration-register word, manipulated bitwise. */
  type Word = bv16

  /** One byte of a word, as a bit-vector. */
  type Byte = bv8

  /** One byte on the bus, as the integer 0..255 Python's smbus lists and C++'s uint8_t hold. */
  type Octet = x: int | 0 <= x < 0x100

  /** A value of C++'s int16_t, the return type of readInaReg. */
  type Int16 = x: int | -0x8000 <= x < 0x8000

  /** A value of C++'s uint16_t: a register's unsigned contents, the calibration value. */
  type Uint16 = x: int | 0 <= x < 0x10000

  /** The high byte `v >> 8` of a word. */
  function High(w: Word): Byte
  {
    (w >> 8) as Byte
  }

  /** The low byte `v & 0xff` of a word. */
  function Low(w: Word): Byte
  {
    (w & 0xFF) as Byte
  }

  /** The unsigned value of a word: high byte times 256 plus low byte. */
  function Value(w: Word): (n: Uint16)
    ensures n / 256 == High(w) as int && n % 256 == Low(w) as int
  {
    High(w) as int * 256 + Low(w) as int
  }

  /** Two words with the same unsigned value are the same word. */
  lemma {:induction false} ValueInjective(a: Word, b: Word)
    requires Value(a) == Value(b)
    ensures a == b
  {
    assert High(a) as int == Value(a) / 256 == High(b) as int;
    assert Low(a) as int == Value(a) % 256 == Low(b) as int;
    ByteInjective(High(a), High(b));
    ByteInjective(Low(a), Low(b));
    Recompose(a);
    Recompose(b);
  }

  /** Two bytes with the same integer value are the same byte. */
  lemma ByteInjective(a: Byte, b: Byte)
    requires a as int == b as int
    ensures a == b
  {
    assert (a as int) as Byte == a;
    assert (b as int) as Byte == b;
  }

  /** A word is its high byte shifted up, or-ed with its low byte. */
  lemma Recompose(w: Word)
    ensures w == ((High(w) as Word) << 8) | (Low(w) as Word)
  {
  }

  /** The two bytes `[v >> 8, v & 0xff]` a register write sends, high byte first. */
  function Split(v: Uint16): (bytes: (Octet, Octet))
    ensures bytes.0 * 256 + bytes.1 == v
  {
    (v / 256, v % 256)
  }

  /** The big-endian join `(b0 << 8) | b1` of the two bytes a register read returns. */
  function Join(b0: Octet, b1: Octet): (v: Uint16)
    ensures Split(v) == (b0, b1)
  {
    b0 * 256 + b1
  }

  /** The bytes of a word on the bus. */
  function WordBytes(w: Word): (bytes: (Octet, Octet))
    ensures Join(bytes.0, bytes.1) == Value(w)
  {
    (High(w) as int, Low(w) as int)
  }

  /**
   * The conversion of an int to int16_t: the unique value of the int16_t range
   * that is congruent to `x` modulo 2^16 (C++20 defines it so, and the
   * compilers the Arduino core is built with do it so).
   */
  function Int16Of(x: int): (r: Int16)
    ensures (r - x) % 0x10000 == 0
  {
    (x + 0x8000) % 0x10000 - 0x8000
  }

  /** A 16-bit value read as two's complement: bit 15 weighs -2^15. */
  function Signed16(x: Uint16): (s: Int16)
    ensures s % 0x10000 == x
    ensures s < 0 <==> x >= 0x8000
  {
    if x < 0x8000 then x else x - 0x10000
  }

  /** The two's-complement reading is the int16_t conversion of the joined value. */
  lemma {:induction false} Signed16IsInt16Of(x: Uint16)
    ensures Signed16(x) == Int16Of(x)
  {
    if x < 0x8000 {
      assert (x + 0x8000) % 0x10000 == x + 0x8000;
    } else {
      assert (x + 0x8000) % 0x10000 == x - 0x8000;
    }
  }

  /** The chip's two's-complement encoding of a signed reading: the inverse of Signed16. */
  function Unsigned16(s: Int16): (x: Uint16)
    ensures Signed16(x) == s
  {
    if s < 0 then s + 0x10000 else s
  }

  /** Reading a 16-bit value as signed and storing it again gives the value back. */
  lemma SignedRoundTrip(x: Uint16)
    ensures Unsigned16(Signed16(x)) == x
  {
  }
}
