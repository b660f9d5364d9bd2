/**
 * The measurement getters' arithmetic: each turns the signed reading of a
 * measurement register (the int16 that read_ina_reg / readInaReg returns)
 * into an engineering unit. Results are integers in mV, 10 uV steps, mA and
 * mW, and reals where the C++ copy scales by 0.01; the final float
 * conversions are not modelled.
 *
 * Beside each decoder stands the register format of the INA219 data sheet
 * that it is meant to invert, and a lemma saying exactly when it does.
 */
module Measure {
  import opened Bits

  // ---------------------------------------------------------------------
  // Bus voltage (register 0x02)

  /**
   * Bus voltage in mV as every copy computes it: the signed reading shifted
   * right by one. Python's `>>` and the C++ shift of a negative int (as the
   * Arduino compilers implement it) both round toward minus infinity.
   */
  function BusMilliVolts(reading: Int16): (mv: int)
    ensures 2 * mv <= reading < 2 * mv + 2
    ensures -0x4000 <= mv < 0x4000
  {
    reading / 2
  }

  /**
   * The bus voltage register as the INA219 data sheet lays it out: bits 3-15
   * hold the voltage in 4 mV steps, bit 1 (CNVR) reports a finished
   * conversion, bit 0 (OVF) a math overflow, and bit 2 is always zero.
   */
  function BusRegister(steps: int, cnvr: bool, ovf: bool): (raw: Uint16)
    requires 0 <= steps < 0x2000
    ensures raw / 8 == steps
    ensures raw % 8 == (if cnvr then 2 else 0) + (if ovf then 1 else 0)
  {
    steps * 8 + (if cnvr then 2 else 0) + (if ovf then 1 else 0)
  }

  /**
   * The shift-by-one decoder reports the register's voltage exactly when the
   * voltage is below 16.384 V and the conversion-ready flag is clear.
   */
  lemma {:induction false} BusDecodeExact(steps: int, cnvr: bool, ovf: bool)
    requires 0 <= steps < 0x2000
    ensures BusMilliVolts(Signed16(BusRegister(steps, cnvr, ovf))) == 4 * steps
        <==> steps < 0x1000 && !cnvr
  {
    var raw := BusRegister(steps, cnvr, ovf);
    if steps < 0x1000 {
      assert Signed16(raw) == raw;
      assert raw / 2 == 4 * steps + (if cnvr then 1 else 0);
    } else {
      assert Signed16(raw) < 0;
    }
  }

  /**
   * The decoder the register format calls for: drop the three status bits
   * and scale the unsigned remainder by 4 mV.
   */
  function BusMilliVoltsOfRegister(raw: Uint16): (mv: int)
    ensures 0 <= mv <= 32764 && mv % 4 == 0
    ensures raw < 8 ==> mv == 0
  {
    (raw / 8) * 4
  }

  /** The corrected decoder reports every register's voltage, whatever the status bits. */
  lemma BusCorrectedExact(steps: int, cnvr: bool, ovf: bool)
    requires 0 <= steps < 0x2000
    ensures BusMilliVoltsOfRegister(BusRegister(steps, cnvr, ovf)) == 4 * steps
  {
  }

  /**
   * Two registers that show the difference: 20 V (5000 steps, 0x9C40) reads
   * as -12768 mV, and 4 mV with CNVR set (0x000A) reads as 5 mV.
   */
  lemma BusDecodeCounterexamples()
    ensures BusRegister(5000, false, false) == 0x9C40
    ensures BusMilliVolts(Signed16(0x9C40)) == -12768
    ensures BusMilliVoltsOfRegister(0x9C40) == 20000
    ensures BusRegister(1, true, false) == 0x000A
    ensures BusMilliVolts(Signed16(0x000A)) == 5
    ensures BusMilliVoltsOfRegister(0x000A) == 4
  {
  }

  /** The getter's own example: a reading of 8 is 4 mV. */
  lemma BusExample()
    ensures BusMilliVolts(8) == 4
  {
  }

  // ---------------------------------------------------------------------
  // Shunt voltage (register 0x01)

  /**
   * The shunt voltage register holds the voltage in 10 uV steps, two's
   * complement; the reading is that count. This is the integer the Python
   * getters return (as a float, documented as mV).
   */
  function PyShuntMilliVolts(reading: Int16): (v: real)
    ensures v == 100.0 * CppShuntMilliVolts(reading)
    ensures v.Floor == reading
  {
    reading as real
  }

  /** The C++ getter: the reading times 0.01, so a count of 10 uV steps becomes mV. */
  function CppShuntMilliVolts(reading: Int16): (mv: real)
    ensures mv * 100.0 == reading as real
  {
    reading as real / 100.0
  }

  /** A zero reading, as a failed C++ read leaves, decodes to zero in every unit. */
  lemma ZeroReadings()
    ensures BusMilliVolts(0) == 0 && CppShuntMilliVolts(0) == 0.0
    ensures CurrentMilliAmps(0) == 0 && PowerMilliWatts(0) == 0
  {
  }

  /**
   * A shunt voltage of `steps` 10 uV steps stored by the chip: the C++ getter
   * reports it in mV, the Python getter reports 100 times that number.
   */
  lemma ShuntDecode(steps: Int16)
    ensures CppShuntMilliVolts(Signed16(Unsigned16(steps))) == steps as real / 100.0
    ensures PyShuntMilliVolts(Signed16(Unsigned16(steps))) == 100.0 * CppShuntMilliVolts(steps)
  {
  }

  /** One millivolt across the shunt (100 steps) is reported as 100.0 "mV" by the Python copies. */
  lemma ShuntCounterexample()
    ensures PyShuntMilliVolts(100) == 100.0
    ensures CppShuntMilliVolts(100) == 1.0
  {
  }

  // ---------------------------------------------------------------------
  // Current (register 0x04)

  /**
   * Current in mA: with the default calibration of 4096 one step of the
   * current register is 1 mA, so the reading is the current: within
   * 32.768 A either way, negative exactly when the current flows backwards.
   */
  function CurrentMilliAmps(reading: Int16): (ma: int)
    ensures -0x8000 <= ma < 0x8000
    ensures ma < 0 <==> reading < 0
  {
    reading
  }

  /** A signed current stored in two's complement decodes to itself, in both directions of flow. */
  lemma CurrentRoundTrip(ma: Int16)
    ensures CurrentMilliAmps(Signed16(Unsigned16(ma))) == ma
    ensures ma < 0 <==> Unsigned16(ma) >= 0x8000
  {
  }

  // ---------------------------------------------------------------------
  // Power (register 0x03)

  /** Power in mW as every copy computes it: the signed reading times 20. */
  function PowerMilliWatts(reading: Int16): (mw: int)
    ensures mw % 20 == 0
    ensures mw < 0 <==> reading < 0
  {
    reading * 20
  }

  /**
   * The power register holds an unsigned count of 20 mW steps (the power
   * step is 20 times the 1 mA current step). Reading it as signed gives the
   * right power exactly when the count is below 0x8000.
   */
  lemma PowerDecodeExact(count: Uint16)
    ensures PowerMilliWatts(Signed16(count)) == 20 * count <==> count < 0x8000
  {
  }

  /** The decoder the unsigned register calls for. */
  function PowerMilliWattsOfRegister(count: Uint16): (mw: int)
    ensures 0 <= mw < 20 * 0x10000 && mw % 20 == 0
    ensures count < 0x8000 ==> mw == PowerMilliWatts(Signed16(count))
  {
    count * 20
  }

  /** The getter's own example, and the register that shows the sign error. */
  lemma PowerExamples()
    ensures PowerMilliWatts(100) == 2000
    ensures PowerMilliWatts(Signed16(0x8000)) == -655360
    ensures PowerMilliWattsOfRegister(0x8000) == 655360
  {
  }
}
