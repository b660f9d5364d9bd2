/**
 * Linear calibration: the new calibration value is the old one scaled by
 * the ratio of an external meter's current to the INA219's, truncated to an
 * integer and with its low bit cleared (bit 0 of the calibration register is
 * not used by the chip). Arithmetic is on exact reals; IEEE rounding of the
 * float division and product is not modelled.
 */
module Calibration {
  import opened Bits

  /** Truncation toward zero: Python's int() of a float, and the C++ float-to-integer conversion. */
  function Trunc(x: real): (n: int)
    ensures 0.0 <= x ==> 0 <= n && n as real <= x < n as real + 1.0
    ensures x < 0.0 ==> n <= 0 && n as real - 1.0 < x <= n as real
  {
    if x >= 0.0 then x.Floor else -((-x).Floor)
  }

  /**
   * Python's `n & 0xFFFE` on an unbounded int: bits 1 to 15 of n's two's
   * complement pattern. The result is the even value in [0, 0xFFFE] that
   * agrees with n modulo 2^16 up to the low bit.
   */
  function MaskFFFE(n: int): (c: int)
    ensures 0 <= c <= 0xFFFE && c % 2 == 0
    ensures 0 <= (n - c) % 0x10000 <= 1
  {
    (n % 0x10000) / 2 * 2
  }

  /** On a 16-bit value the mask only clears the low bit, and applying it again changes nothing. */
  lemma MaskFFFEInRange(n: Uint16)
    ensures MaskFFFE(n) == n - n % 2
    ensures MaskFFFE(MaskFFFE(n)) == MaskFFFE(n)
  {
  }

  /** The old value scaled by the meter's reading over the chip's, before truncation. */
  function Scaled(cal: int, ina: real, ext: real): real
    requires ina != 0.0
  {
    ext / ina * cal as real
  }

  /** Python's linear_cal value: `int((ext / ina) * cal) & 0xFFFE`. */
  function PyLinearCal(cal: int, ina: real, ext: real): (c: int)
    requires ina != 0.0
    ensures 0 <= c <= 0xFFFE && c % 2 == 0
  {
    MaskFFFE(Trunc(Scaled(cal, ina, ext)))
  }

  /** The scaled value is one the C++ conversion to uint16_t is defined for. */
  predicate CastDefined(x: real)
  {
    -1.0 < x < 65536.0
  }

  /**
   * C++'s linearCalibrate value: `(uint16_t)((ext / ina) * calValue) & 0xFFFE`.
   * A division by zero or a product outside (-1, 65536) makes the
   * conversion undefined behaviour, so the caller must avoid both.
   */
  function CppLinearCal(cal: Uint16, ina: real, ext: real): (c: Uint16)
    requires ina != 0.0 && CastDefined(Scaled(cal, ina, ext))
    ensures c % 2 == 0 && c <= 0xFFFE
    ensures c as real <= Scaled(cal, ina, ext) + 1.0
    ensures Scaled(cal, ina, ext) < c as real + 2.0
    ensures 0.0 <= Scaled(cal, ina, ext) ==> c as real <= Scaled(cal, ina, ext)
    ensures Scaled(cal, ina, ext) < 0.0 ==> c == 0
  {
    var t := Trunc(Scaled(cal, ina, ext));
    t - t % 2
  }

  /** Where C++ is defined the two languages compute the same calibration value. */
  lemma CopiesAgree(cal: Uint16, ina: real, ext: real)
    requires ina != 0.0 && CastDefined(Scaled(cal, ina, ext))
    ensures PyLinearCal(cal, ina, ext) == CppLinearCal(cal, ina, ext)
  {
    MaskFFFEInRange(Trunc(Scaled(cal, ina, ext)));
  }

  /** Equal readings leave an even calibration value unchanged and clear the low bit of an odd one. */
  lemma EqualReadings(cal: Uint16, reading: real)
    requires reading != 0.0
    ensures PyLinearCal(cal, reading, reading) == cal - cal % 2
    ensures CastDefined(Scaled(cal, reading, reading))
    ensures CppLinearCal(cal, reading, reading) == cal - cal % 2
  {
    assert Scaled(cal, reading, reading) == cal as real by {
      assert reading / reading == 1.0;
    }
    assert Trunc(cal as real) == cal;
    MaskFFFEInRange(cal);
  }

  /**
   * From the default 4096: equal readings keep it, a meter reading twice the
   * chip's doubles it, and a sixteenfold ratio wraps to 0 in Python (the C++
   * conversion is undefined there). A negative ratio is not rejected: it
   * wraps to 0xF000.
   */
  lemma CalibrationExamples()
    ensures PyLinearCal(4096, 1000.0, 1000.0) == 4096
    ensures PyLinearCal(4096, 500.0, 1000.0) == 8192
    ensures CppLinearCal(4096, 500.0, 1000.0) == 8192
    ensures PyLinearCal(4096, 1.0, 16.0) == 0 && !CastDefined(Scaled(4096, 1.0, 16.0))
    ensures PyLinearCal(4096, -1.0, 1.0) == 0xF000
  {
    assert 1000.0 / 500.0 * 4096 as real == 8192.0;
    assert 16.0 / 1.0 * 4096 as real == 65536.0;
    assert 1.0 / -1.0 * 4096 as real == -4096.0;
  }
}
