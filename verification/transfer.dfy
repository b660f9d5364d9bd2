/**
 * The two-byte register transfers of the driver: how a read's bytes become
 * the signed reading (`read_ina_reg`, `readInaReg`), how a value becomes the
 * bytes of a write (`_write_register`, `writeInaReg`), and how the
 * configuration setters recover the 16-bit word from the bytes they read.
 */
module Transfer {
  import opened Bits

  /**
   * Python's read_ina_reg: the big-endian join of the two bytes, less 0x10000
   * when bit 7 of the first byte is set (for a byte, `b0 & 0x80` is non-zero
   * exactly when b0 >= 0x80).
   */
  function PyReadInaReg(b0: Octet, b1: Octet): (r: Int16)
    ensures Unsigned16(r) == Join(b0, b1)
    ensures r < 0 <==> b0 >= 0x80
  {
    if b0 >= 0x80 then -0x10000 + Join(b0, b1) else Join(b0, b1)
  }

  /**
   * C++'s readInaReg: the join `(buf[0] << 8) | buf[1]`, computed as an int,
   * returned as int16_t.
   */
  function CppReadInaReg(b0: Octet, b1: Octet): (r: Int16)
    ensures Unsigned16(r) == Join(b0, b1)
  {
    Signed16IsInt16Of(Join(b0, b1));
    Int16Of(Join(b0, b1))
  }

  /** The three copies read the same bytes as the same two's-complement value. */
  lemma ReadCopiesAgree(b0: Octet, b1: Octet)
    ensures PyReadInaReg(b0, b1) == CppReadInaReg(b0, b1) == Signed16(Join(b0, b1))
  {
    Signed16IsInt16Of(Join(b0, b1));
  }

  /** The boundary readings of the sign extension. */
  lemma ReadExamples(b0: Octet, b1: Octet)
    ensures b0 == 0x00 && b1 == 0x00 ==> PyReadInaReg(b0, b1) == 0
    ensures b0 == 0x7F && b1 == 0xFF ==> PyReadInaReg(b0, b1) == 32767
    ensures b0 == 0x80 && b1 == 0x00 ==> PyReadInaReg(b0, b1) == -32768
    ensures b0 == 0xFF && b1 == 0xFF ==> PyReadInaReg(b0, b1) == -1
  {
  }

  /** A signed value stored in two's complement and read back is the value again. */
  lemma {:induction false} ReadInvertsStore(s: Int16)
    ensures PyReadInaReg(Split(Unsigned16(s)).0, Split(Unsigned16(s)).1) == s
  {
    var (b0, b1) := Split(Unsigned16(s));
    assert Join(b0, b1) == Unsigned16(s);
    assert Unsigned16(PyReadInaReg(b0, b1)) == Unsigned16(s);
    UnsignedInjective(PyReadInaReg(b0, b1), s);
  }

  /** Different signed values have different two's-complement patterns. */
  lemma UnsignedInjective(a: Int16, b: Int16)
    requires Unsigned16(a) == Unsigned16(b)
    ensures a == b
  {
    assert Signed16(Unsigned16(a)) == a;
    assert Signed16(Unsigned16(b)) == b;
  }

  /**
   * Python's _write_register list `[value >> 8, value & 0xff]` for any Python
   * int: the arithmetic shift is a floor division by 256 and the mask keeps
   * the non-negative remainder, as Dafny's `/` and `%` do for a positive
   * divisor.
   */
  function PyWriteItems(value: int): (items: (int, int))
    ensures 0 <= items.1 < 0x100
    ensures items.0 * 0x100 + items.1 == value
  {
    (value / 0x100, value % 0x100)
  }

  /**
   * The bytes that reach the chip for a list of ints: smbus stores each item
   * into an unsigned byte, keeping its low eight bits.
   */
  function Transmit(items: (int, int)): (bytes: (Octet, Octet))
    ensures (bytes.0 - items.0) % 0x100 == 0 && (bytes.1 - items.1) % 0x100 == 0
  {
    (items.0 % 0x100, items.1 % 0x100)
  }

  /** An unsigned 16-bit value is written as its big-endian bytes, and reading them joins it back. */
  lemma PyWriteRoundTrip(v: Uint16)
    ensures Transmit(PyWriteItems(v)) == PyWriteItems(v) == Split(v)
    ensures Join(PyWriteItems(v).0, PyWriteItems(v).1) == v
  {
  }

  /**
   * A signed configuration value (the Python setters write the int16 they
   * read back, modified) reaches the chip as the bytes of its two's-complement
   * pattern.
   */
  lemma {:induction false} PyWriteSigned(s: Int16)
    ensures Transmit(PyWriteItems(s)) == Split(Unsigned16(s))
  {
    if s < 0 {
      var u := s + 0x10000;
      assert s / 0x100 == u / 0x100 - 0x100;
      assert s % 0x100 == u % 0x100;
    }
  }

  /**
   * C++'s writeInaReg buffer `{value >> 8, value & 0xff}`; its int16_t
   * callers pass the configuration value, converted to uint16_t, which is its
   * two's-complement pattern.
   */
  function CppWriteBytes(value: Uint16): (bytes: (Octet, Octet))
    ensures Join(bytes.0, bytes.1) == value
  {
    (value / 0x100, value % 0x100)
  }

  /**
   * The word whose bytes a configuration read returned: the setters do their
   * bitwise step on this 16-bit pattern.
   */
  function WordOfBytes(b0: Octet, b1: Octet): Word
  {
    ((b0 as Byte) as Word << 8) | (b1 as Byte) as Word
  }

  /**
   * The 16-bit pattern of a signed configuration value: the word the
   * setters' bitwise steps act on. Its bytes are those of the value's
   * two's-complement pattern.
   */
  function WordOf(s: Int16): Word
  {
    WordOfBytes(Split(Unsigned16(s)).0, Split(Unsigned16(s)).1)
  }

  /** The pattern of a word's signed reading is the word itself. */
  lemma WordOfSigned(w: Word)
    ensures WordOf(Signed16(Value(w))) == w
  {
    SignedRoundTrip(Value(w));
    assert Split(Value(w)) == WordBytes(w);
    WordBytesRoundTrip(w);
  }

  /** The pattern of the zero a failed read returns is the all-zero word. */
  lemma WordOfZero()
    ensures WordOf(0) == 0
  {
    assert Split(Unsigned16(0)) == (0, 0);
    assert WordOfBytes(0, 0) == 0;
  }

  /** A word sent as bytes and assembled again is the same word. */
  lemma WordBytesRoundTrip(w: Word)
    ensures WordOfBytes(WordBytes(w).0, WordBytes(w).1) == w
  {
    assert WordBytes(w) == (High(w) as int, Low(w) as int);
    AssembleBytes(w);
  }

  /** The step of WordBytesRoundTrip on the byte values themselves. */
  lemma AssembleBytes(w: Word)
    ensures WordOfBytes(High(w) as int, Low(w) as int) == w
  {
    ByteRoundTrip(High(w));
    ByteRoundTrip(Low(w));
    Assemble((High(w) as int) as Byte, (Low(w) as int) as Byte, w);
  }

  /** A byte taken as an integer and back is the same byte. */
  lemma ByteRoundTrip(x: Byte)
    ensures (x as int) as Byte == x
  {
  }

  /** A word's high and low bytes, shifted into place and or-ed, are the word. */
  lemma Assemble(x: Byte, y: Byte, w: Word)
    requires x == High(w) && y == Low(w)
    ensures (x as Word << 8) | y as Word == w
  {
    Recompose(w);
  }
}
