/**
 * The C++ class and the Python copies side by side: driven against the same
 * chip, where they agree and exactly how they differ.
 */
module Copies {
  import opened Wrappers
  import opened Bits
  import opened Registers
  import opened Config
  import opened Measure
  import opened Calibration
  import opened Device
  import Cpp = CppDriver
  import Py = PyDriver

  /**
   * Every setter call other than a 12-bit ADC one does the same in both
   * languages on a present chip: the same read-modify-write on the bus and
   * the same word in the chip.
   */
  lemma SettersAgree(dc: Cpp.Ina, dp: Py.Ina, copy: Py.Copy, s: Setter)
    requires dc.chip == dp.chip && dc.chip.present
    requires !s.AtFullResolution() && !Py.NameErrorOn(copy, s)
    ensures Cpp.Apply(dc, s).chip == Py.Apply(copy, dp, s).after.chip
    ensures var traffic := if s.Rejected() then [] else Rmw(CppStep(dc.chip.config, s));
      Cpp.Apply(dc, s).log == dc.log + traffic && Py.Apply(copy, dp, s).after.log == dp.log + traffic
  {
    var w := dc.chip.config;
    StepsAgree(w, s);
    CppApplyPresent(dc, s);
    Py.ApplyPresent(copy, dp, s);
  }

  /** The C++ setter call on a present chip, in the form the Python one is stated in. */
  lemma CppApplyPresent(d: Cpp.Ina, s: Setter)
    requires d.chip.present
    ensures var w := CppStep(d.chip.config, s);
      && Cpp.Apply(d, s).chip == d.chip.(config := w)
      && Cpp.Apply(d, s).log == d.log + if s.Rejected() then [] else Rmw(w)
  {
    Cpp.ApplyEffect(d, s);
    if s.Rejected() {
      assert d.log + [] == d.log;
    }
  }

  /**
   * A 12-bit ADC call, in the words the two languages' steps produce from
   * the same configuration: C++ sets the averaging marker (bit 3 of the
   * field) and the chip averages as asked at 12 bits, while the Python
   * copies leave the bare averaging code with bit 3 clear, which the chip
   * reads as a single sample at the reduced resolution in its low two bits
   * (9 bits for one sample, 10 bits for two).
   */
  lemma AdcMarkerDiffers(w: Word, s: Setter)
    requires s.AtFullResolution()
    ensures s.Target().Get(CppStep(w, s)) == s.Target().Get(PyStep(w, s)) | 0x08
    ensures s.Target().Get(PyStep(w, s)) & 0x08 == 0
    ensures AdcSetting(s.Target().Get(PyStep(w, s))) == (AdcBitsOf(s.CppArg() & 0x03), Samples1)
    ensures AdcSetting(s.Target().Get(CppStep(w, s))) == (Bits12, AdcSampleOf(s.CppArg() & 0x07))
  {
    var c := s.CppArg() & 0x07;
    assert s.CppArg() == 0x08 | c;
    assert s.PyArg() == 0x80 | c;
  }

  /**
   * begin on the same present chip: both return true with calValue 4096 and
   * leave the bus range, gain, bus ADC and mode at their defaults; the C++
   * class writes 4096 to the calibration register and selects 8-sample
   * shunt averaging, while the Python copies leave the calibration register
   * alone, set bit 14 and select a single shunt sample.
   */
  lemma BeginCopiesDiffer(dc: Cpp.Ina, dp: Py.Ina, copy: Py.Copy)
    requires dc.chip == dp.chip && dc.chip.present
    ensures Cpp.Begin(dc).0 && Py.Begin(copy, dp) == Py.Returned(true, Py.Begin(copy, dp).after)
    ensures Cpp.Begin(dc).1.calValue == 4096 && Py.Begin(copy, dp).after.calValue == Some(4096)
    ensures var sc := SettingsOf(Cpp.Begin(dc).1.chip.config);
      var sp := SettingsOf(Py.Begin(copy, dp).after.chip.config);
      sc == DefaultSettings && sp == sc.(shuntAdc := (Bits12, Samples1))
    ensures Cpp.Begin(dc).1.chip.calibration == 4096
    ensures Py.Begin(copy, dp).after.chip.calibration == dc.chip.calibration
    ensures Py.Begin(copy, dp).after.chip.config & 0x4000 != 0
  {
    Cpp.BeginPresent(dc);
    Py.BeginPresent(copy, dp);
    Py.BeginSettings(copy, dp);
  }

  /** The Python reset, as intended, does what the C++ reset does. */
  lemma ResetsAgree(dc: Cpp.Ina, dp: Py.Ina)
    requires dc.chip == dp.chip && dc.chip.present
    ensures Py.ResetIntended(dp).after.chip == Cpp.Reset(dc).chip
    ensures Py.ResetIntended(dp).after.log == dp.log + [Write(Config, (0x80, 0x00))]
    ensures Cpp.Reset(dc).log == dc.log + [Write(Config, (0x80, 0x00))]
  {
  }

  /**
   * Where the C++ conversion is defined, linear calibration from the same
   * stored value stores and writes the same new value in both languages.
   */
  lemma LinearCalAgree(dc: Cpp.Ina, dp: Py.Ina, ina: real, ext: real)
    requires dc.chip == dp.chip && dc.chip.present && dp.calValue == Some(dc.calValue)
    requires ina != 0.0 && CastDefined(Scaled(dc.calValue, ina, ext))
    ensures Py.LinearCal(dp, ina, ext).after.calValue == Some(Cpp.LinearCalibrate(dc, ina, ext).calValue)
    ensures Py.LinearCal(dp, ina, ext).after.chip == Cpp.LinearCalibrate(dc, ina, ext).chip
  {
    CopiesAgree(dc.calValue, ina, ext);
    Py.LinearCalWrites(dp, ina, ext);
  }

  /**
   * The getters on the same present chip: bus voltage, current and power
   * agree; the Python shunt voltage is 100 times the C++ one.
   */
  lemma GettersAgree(dc: Cpp.Ina, dp: Py.Ina)
    requires dc.chip == dp.chip && dc.chip.present
    ensures Py.GetBusVoltage(dp).value == Cpp.GetBusVoltage(dc).0
    ensures Py.GetCurrent(dp).value == Cpp.GetCurrent(dc).0
    ensures Py.GetPower(dp).value == Cpp.GetPower(dc).0
    ensures Py.GetShuntVoltage(dp).value == 100.0 * Cpp.GetShuntVoltage(dc).0
  {
  }
}
