/**
 * The Python ints the Python setters compute with, and the bitwise
 * operators they apply: clearing a 16-bit mask (`conf &= ~m`) and OR-ing in
 * a value below 2^16 (`conf |= p`). Python ints behave as infinite two's
 * complement, so `~m` has every bit from 16 up set and `p` has none of
 * them: both operators change bits 0-15 only and keep the rest of the
 * number. A number is therefore kept as its low 16 bits and the multiple of
 * 2^16 above them.
 */
module PyInt {
  import opened Bits
  import Transfer

  /** The Python int `high * 2^16 + low`, with `low` its bits 0-15. */
  datatype Wide = Wide(high: int, low: Word) {
    function Int(): int
    {
      high * 0x10000 + Value(low)
    }
  }

  /** `x & ~m` for a 16-bit mask `m`. */
  function AndNot(x: Wide, m: Word): Wide
  {
    x.(low := x.low & !m)
  }

  /** `x | p` for a value `p` below 2^16. */
  function Or(x: Wide, p: Word): Wide
  {
    x.(low := x.low | p)
  }

  /** A setter's two operators in a row act on the low word alone. */
  lemma ClearThenSet(x: Wide, m: Word, p: Word)
    ensures Or(AndNot(x, m), p) == Wide(x.high, (x.low & !m) | p)
  {
  }

  /** A number has one representation: its low word and the multiple above it are determined by it. */
  lemma {:induction false} WideCanonical(a: Wide, b: Wide)
    requires a.Int() == b.Int()
    ensures a == b
  {
    SplitWide(a.high, Value(a.low));
    SplitWide(b.high, Value(b.low));
    ValueInjective(a.low, b.low);
  }

  lemma SplitWide(q: int, n: int)
    requires 0 <= n < 0x10000
    ensures (q * 0x10000 + n) / 0x10000 == q && (q * 0x10000 + n) % 0x10000 == n
  {
  }

  /**
   * The int read_ina_reg returns for a word: the word's pattern, and above
   * it the sign bits of a negative reading.
   */
  function OfReading(w: Word): (x: Wide)
    ensures x.Int() == Signed16(Value(w))
    ensures x.low == w
  {
    Wide(if Value(w) >= 0x8000 then -1 else 0, w)
  }

  /**
   * Whatever lies above bit 15, `[x >> 8, x & 0xff]` reaches the chip as the
   * bytes of the low word once smbus keeps the low 8 bits of each item.
   */
  lemma WriteWide(x: Wide)
    ensures Transfer.Transmit(Transfer.PyWriteItems(x.Int())) == WordBytes(x.low)
  {
    WriteNumber(x.high, Value(x.low));
  }

  /** The bytes smbus sends for `q * 2^16 + n` are those of `n`. */
  lemma {:induction false} WriteNumber(q: int, n: Uint16)
    ensures Transfer.Transmit(Transfer.PyWriteItems(q * 0x10000 + n)) == Split(n)
  {
    var v := q * 0x10000 + n;
    SplitByte(q * 0x100, n);
    assert v / 0x100 == q * 0x100 + n / 0x100 && v % 0x100 == n % 0x100;
    SplitByte(q, n / 0x100);
  }

  lemma SplitByte(q: int, n: int)
    requires 0 <= n
    ensures (q * 0x100 + n) / 0x100 == q + n / 0x100 && (q * 0x100 + n) % 0x100 == n % 0x100
  {
  }
}
