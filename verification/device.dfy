/**
 * The bus seen from the driver: an INA219 that either answers at its
 * address or does not, its six registers, and the record of every
 * transaction the driver starts. Bus timing, clock stretching and the
 * smbus/Wire libraries are not modelled; a transaction either reaches a
 * present chip or fails.
 */
module Device {
  import opened Bits
  import opened Registers
  import Transfer

  /** One transaction the driver starts on the bus. */
  datatype Access =
    | Probe                                      // scan: address the chip, no data
    | Read(reg: Register)                        // set the register pointer, read two bytes
    | Write(reg: Register, bytes: (Octet, Octet)) // set the pointer, write two bytes, high first

  /**
   * A configuration word as the chip holds it. Bit 15 is RST: writing it
   * resets the chip and the bit clears itself, so it always reads 0.
   */
  type Held = w: Word | w & 0x8000 == 0

  /**
   * The chip: whether it acknowledges its address, the configuration word,
   * the four measurement registers and the calibration register.
   */
  datatype Chip = Chip(
    present: bool,
    config: Held,
    shunt: Uint16, bus: Uint16, power: Uint16, current: Uint16,
    calibration: Uint16)

  /** The configuration word after power-on or RST, as the INA219 datasheet gives it. */
  const PowerOnConfig: Held := 0x399F

  /**
   * The chip after a reset: every register back to its power-on value, the
   * configuration at 0x399F and power, current and calibration at 0. The
   * two voltage registers have no power-on value; they keep their contents
   * until the next conversion.
   */
  function PowerOn(c: Chip): (p: Chip)
    ensures Contents(p, Config) == 0x399F
    ensures Contents(p, Power) == 0 && Contents(p, Current) == 0 && Contents(p, Calibration) == 0
    ensures p.present == c.present && Contents(p, ShuntVoltage) == Contents(c, ShuntVoltage)
    ensures Contents(p, BusVoltage) == Contents(c, BusVoltage)
  {
    c.(config := PowerOnConfig, power := 0, current := 0, calibration := 0)
  }

  /** The unsigned contents of a register. */
  function Contents(c: Chip, reg: Register): Uint16
  {
    match reg
    case Config => Value(c.config)
    case ShuntVoltage => c.shunt
    case BusVoltage => c.bus
    case Power => c.power
    case Current => c.current
    case Calibration => c.calibration
  }

  /** The two bytes a present chip returns for a register, high byte first. */
  function Bytes(c: Chip, reg: Register): (bytes: (Octet, Octet))
    ensures Join(bytes.0, bytes.1) == Contents(c, reg)
    ensures reg == Config ==> bytes == WordBytes(c.config)
  {
    if reg == Config then WordBytes(c.config) else Split(Contents(c, reg))
  }

  /**
   * What the configuration register makes of a written word: one with RST
   * set resets the chip, any other is held as written.
   */
  function Store(c: Chip, w: Word): (c': Chip)
    ensures w & 0x8000 == 0 ==> c' == c.(config := w)
    ensures w & 0x8000 != 0 ==> Contents(c', Config) == 0x399F && Contents(c', Calibration) == 0
    ensures c'.present == c.present && c'.shunt == c.shunt && c'.bus == c.bus
  {
    if w & 0x8000 != 0 then PowerOn(c) else c.(config := w)
  }

  /**
   * What a present chip does with a write: the configuration and calibration
   * registers take the bytes, the measurement registers are read-only, and
   * a configuration word with RST set resets every register instead.
   */
  function Receive(c: Chip, reg: Register, bytes: (Octet, Octet)): (c': Chip)
    ensures c'.present == c.present
    ensures reg != Config ==> c'.config == c.config
    ensures reg != Calibration && !Resets(reg, bytes) ==> c'.calibration == c.calibration
    ensures !Resets(reg, bytes) ==> c'.(config := c.config, calibration := c.calibration) == c
    ensures Resets(reg, bytes) ==> c'.config == PowerOnConfig && c'.calibration == 0
    ensures Resets(reg, bytes) ==> c'.power == 0 && c'.current == 0 && c' == PowerOn(c)
  {
    match reg
    case Config => Store(c, Transfer.WordOfBytes(bytes.0, bytes.1))
    case Calibration => c.(calibration := Join(bytes.0, bytes.1))
    case _ => c
  }

  /** A write that sets RST: a configuration write whose word has bit 15 set. */
  predicate Resets(reg: Register, bytes: (Octet, Octet))
  {
    reg == Config && Transfer.WordOfBytes(bytes.0, bytes.1) & 0x8000 != 0
  }

  /**
   * A written word the chip can hold, or calibration value, is what a later
   * read returns; a word with RST set brings the chip back to power-on.
   */
  lemma ReceiveThenRead(c: Chip, w: Word, v: Uint16)
    ensures w & 0x8000 == 0 ==> Receive(c, Config, WordBytes(w)) == c.(config := w)
    ensures w & 0x8000 == 0 ==> Bytes(Receive(c, Config, WordBytes(w)), Config) == WordBytes(w)
    ensures w & 0x8000 != 0 ==> Receive(c, Config, WordBytes(w)) == PowerOn(c)
    ensures Receive(c, Calibration, Split(v)) == c.(calibration := v)
    ensures Bytes(Receive(c, Calibration, Split(v)), Calibration) == Split(v)
  {
    Transfer.WordBytesRoundTrip(w);
  }

  /** The two transactions of one read-modify-write that writes the word `w`. */
  function Rmw(w: Word): seq<Access>
  {
    [Read(Config), Write(Config, WordBytes(w))]
  }

  /** Two transactions logged one after the other are the two logged together. */
  lemma LogTwo(log: seq<Access>, a: Access, b: Access)
    ensures log + [a] + [b] == log + [a, b]
  {
  }

  /** Appending to the log is associative. */
  lemma AppendAssoc(log: seq<Access>, a: seq<Access>, b: seq<Access>)
    ensures log + a + b == log + (a + b)
  {
  }
}
