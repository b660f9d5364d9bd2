/**
 * The C++ driver class (DFRobot_INA219 with its I2C subclass) as a pure
 * state transformer: each member function takes the driver object and
 * returns its result together with the object after the call.
 */
module CppDriver {
  import opened Bits
  import opened Registers
  import opened Config
  import opened Transfer
  import opened Measure
  import opened Calibration
  import opened Device

  /** The driver object: the chip behind it, calValue, lastOperateStatus and the transactions it has started. */
  datatype Ina = Ina(chip: Chip, calValue: Uint16, status: Status, log: seq<Access>)

  /**
   * readInaReg through readReg: the status is ReadRegError until the read
   * completes; when the address phase fails the buffer keeps its zeros.
   */
  function ReadInaReg(d: Ina, reg: Register): (r: (Int16, Ina))
    ensures r.0 == if d.chip.present then Signed16(Contents(d.chip, reg)) else 0
    ensures r.1 == d.(status := if d.chip.present then Ok else ReadRegError, log := d.log + [Read(reg)])
  {
    var buf := if d.chip.present then Bytes(d.chip, reg) else (0, 0);
    (CppReadInaReg(buf.0, buf.1),
     d.(status := if d.chip.present then Ok else ReadRegError, log := d.log + [Read(reg)]))
  }

  /**
   * writeInaReg through writeReg: the buffer is the value's big-endian
   * bytes; writeReg ignores the outcome of the transaction and ends with
   * the status Ok.
   */
  function WriteInaReg(d: Ina, reg: Register, value: Uint16): (d': Ina)
    ensures d'.log == d.log + [Write(reg, Split(value))]
    ensures d'.chip == if d.chip.present then Receive(d.chip, reg, Split(value)) else d.chip
    ensures d'.status == Ok && d'.calValue == d.calValue
  {
    var buffer := CppWriteBytes(value);
    d.(chip := if d.chip.present then Receive(d.chip, reg, buffer) else d.chip,
       status := Ok, log := d.log + [Write(reg, buffer)])
  }

  /**
   * The read-modify-write every configuration setter performs: read the
   * register as int16_t, clear the field and OR in the argument on its
   * 16-bit pattern, write the pattern back as uint16_t. Only the
   * configuration register changes: on a present chip its field holds the
   * argument and every other bit is kept, and the word written never sets
   * RST. calValue is untouched and the status ends Ok.
   */
  function SetField(d: Ina, f: Field, v: Word): (d': Ina)
    requires v < f.Limit()
    ensures d'.chip == d.chip.(config := d'.chip.config)
    ensures d.chip.present ==> f.Get(d'.chip.config) == v && SameOutside(f, d'.chip.config, d.chip.config)
    ensures d'.status == Ok && d'.calValue == d.calValue
  {
    var (conf, d1) := ReadInaReg(d, Config);
    ConfigReading(d.chip);
    InsertKeepsTopBits(f, Seen(d.chip), v);
    WriteWord(d1, Insert(f, Seen(d.chip), v));
    WriteInaReg(d1, Config, Value(Insert(f, WordOf(conf), v)))
  }

  /** setBRNG: a present chip's range bit holds the argument's code and no other bit changes. */
  function SetBRNG(d: Ina, range: BusRange): (d': Ina)
    ensures d.chip.present ==> BusRangeField.Get(d'.chip.config) == range.Code()
    ensures d.chip.present ==> SameOutside(BusRangeField, d'.chip.config, d.chip.config)
    ensures d'.chip == d.chip.(config := d'.chip.config) && d'.status == Ok && d'.calValue == d.calValue
  {
    var v := range.Code();
    assert v < BusRangeField.Limit();
    SetField(d, BusRangeField, v)
  }

  /** setPGA: a present chip's gain bits hold the argument's code and no other bit changes. */
  function SetPGA(d: Ina, gain: PgaGain): (d': Ina)
    ensures d.chip.present ==> PgaField.Get(d'.chip.config) == gain.Code()
    ensures d.chip.present ==> SameOutside(PgaField, d'.chip.config, d.chip.config)
    ensures d'.chip == d.chip.(config := d'.chip.config) && d'.status == Ok && d'.calValue == d.calValue
  {
    var v := gain.Code();
    assert v < PgaField.Limit();
    SetField(d, PgaField, v)
  }

  /**
   * setBADC: the guard returns before any access; otherwise the encoded
   * setting goes to bits 7-10, where the chip reads it back as the
   * requested resolution and averaging, and no other bit changes.
   */
  function SetBADC(d: Ina, bits: AdcBits, sample: AdcSample): (d': Ina)
    ensures AdcRejects(bits, sample) ==> d' == d
    ensures !AdcRejects(bits, sample) && d.chip.present ==> AdcSetting(BusAdcField.Get(d'.chip.config)) == (bits, sample)
    ensures d.chip.present ==> SameOutside(BusAdcField, d'.chip.config, d.chip.config)
    ensures d'.chip == d.chip.(config := d'.chip.config) && d'.calValue == d.calValue
  {
    if AdcRejects(bits, sample) then d
    else
      AdcRoundTrip(bits, sample);
      SetField(d, BusAdcField, AdcField(bits, sample))
  }

  /** setSADC: as setBADC, for bits 3-6. */
  function SetSADC(d: Ina, bits: AdcBits, sample: AdcSample): (d': Ina)
    ensures AdcRejects(bits, sample) ==> d' == d
    ensures !AdcRejects(bits, sample) && d.chip.present ==> AdcSetting(ShuntAdcField.Get(d'.chip.config)) == (bits, sample)
    ensures d.chip.present ==> SameOutside(ShuntAdcField, d'.chip.config, d.chip.config)
    ensures d'.chip == d.chip.(config := d'.chip.config) && d'.calValue == d.calValue
  {
    if AdcRejects(bits, sample) then d
    else
      AdcRoundTrip(bits, sample);
      SetField(d, ShuntAdcField, AdcField(bits, sample))
  }

  /** setMode: a present chip's mode bits hold the argument's code and no other bit changes. */
  function SetMode(d: Ina, mode: Mode): (d': Ina)
    ensures d.chip.present ==> ModeField.Get(d'.chip.config) == mode.Code()
    ensures d.chip.present ==> SameOutside(ModeField, d'.chip.config, d.chip.config)
    ensures d'.chip == d.chip.(config := d'.chip.config) && d'.status == Ok && d'.calValue == d.calValue
  {
    var v := mode.Code();
    assert v < ModeField.Limit();
    SetField(d, ModeField, v)
  }

  /**
   * reset: write INA219_CONFIG_RESET to the configuration register. The
   * bytes are 0x80, 0x00; a present chip takes them as RST and returns to
   * its power-on state. calValue is not touched.
   */
  function Reset(d: Ina): (d': Ina)
    ensures d'.log == d.log + [Write(Config, (0x80, 0x00))]
    ensures d.chip.present ==> d'.chip == PowerOn(d.chip)
    ensures !d.chip.present ==> d'.chip == d.chip
    ensures d'.status == Ok && d'.calValue == d.calValue
  {
    assert Value(ConfigReset) == 0x8000;
    assert WordBytes(ConfigReset) == (0x80, 0x00);
    ReceiveThenRead(d.chip, ConfigReset, 0);
    WriteInaReg(d, Config, Value(ConfigReset))
  }

  /** A setter call, dispatched to the member function it names; only the configuration can change. */
  function Apply(d: Ina, s: Setter): (d': Ina)
    ensures d'.chip == d.chip.(config := d'.chip.config) && d'.calValue == d.calValue
  {
    match s
    case SetRange(range) => SetBRNG(d, range)
    case SetGain(gain) => SetPGA(d, gain)
    case SetBusAdc(bits, sample) => SetBADC(d, bits, sample)
    case SetShuntAdc(bits, sample) => SetSADC(d, bits, sample)
    case SetOpMode(mode) => SetMode(d, mode)
  }

  /** Setter calls made one after another; together they too change only the configuration. */
  function ApplyAll(d: Ina, calls: seq<Setter>): (d': Ina)
    ensures d'.chip == d.chip.(config := d'.chip.config) && d'.calValue == d.calValue
    decreases |calls|
  {
    if |calls| == 0 then d else ApplyAll(Apply(d, calls[0]), calls[1..])
  }

  /**
   * begin: the status is InitError unless the probe succeeds; then the five
   * defaults are applied in order, calValue becomes 4096 and is written to
   * the calibration register. It returns true exactly when the chip
   * answers; a failed probe leaves InitError and nothing else changed.
   */
  function Begin(d: Ina): (r: (bool, Ina))
    ensures r.0 == d.chip.present
    ensures !r.0 ==> r.1 == d.(status := InitError, log := d.log + [Probe])
    ensures r.0 ==> r.1.status == Ok && r.1.calValue == 4096 && r.1.chip.calibration == 4096
  {
    var d0 := d.(status := InitError, log := d.log + [Probe]);
    if !d.chip.present then (false, d0) else (true, Configure(d0, BeginCalls))
  }

  /**
   * The part of begin after a successful probe: the setter calls, then
   * calValue 4096 and its write. Only the configuration and calibration
   * registers change, and a present chip ends with calibration 4096.
   */
  function Configure(d: Ina, calls: seq<Setter>): (d': Ina)
    ensures d'.status == Ok && d'.calValue == 4096
    ensures d.chip.present ==> d'.chip.calibration == 4096
    ensures d'.chip.(config := d.chip.config, calibration := d.chip.calibration) == d.chip
  {
    var d5 := ApplyAll(d, calls);
    ReceiveThenRead(d5.chip, 0, 4096);
    WriteInaReg(d5.(calValue := DefaultCalibration), Calibration, DefaultCalibration).(status := Ok)
  }

  /** linearCalibrate: scale calValue and write it to the calibration register. */
  function LinearCalibrate(d: Ina, ina: real, ext: real): (d': Ina)
    requires ina != 0.0 && CastDefined(Scaled(d.calValue, ina, ext))
    ensures d'.calValue % 2 == 0 && d'.calValue <= 0xFFFE
    ensures d'.log == d.log + [Write(Calibration, Split(d'.calValue))]
    ensures d.chip.present ==> d'.chip == d.chip.(calibration := d'.calValue)
  {
    var c := CppLinearCal(d.calValue, ina, ext);
    WriteInaReg(d.(calValue := c), Calibration, c)
  }

  /** getBusVoltage_V, in mV: the bus register decoded, or 0 from a failed read; the read is the only transaction. */
  function GetBusVoltage(d: Ina): (r: (int, Ina))
    ensures d.chip.present ==> r.0 == BusMilliVolts(Signed16(d.chip.bus))
    ensures !d.chip.present ==> r.0 == 0
    ensures r.1 == d.(status := if d.chip.present then Ok else ReadRegError, log := d.log + [Read(BusVoltage)])
  {
    var read := ReadInaReg(d, BusVoltage);
    ZeroReadings();
    (BusMilliVolts(read.0), read.1)
  }

  /** getShuntVoltage_mV: the shunt register decoded, or 0 from a failed read. */
  function GetShuntVoltage(d: Ina): (r: (real, Ina))
    ensures d.chip.present ==> r.0 == CppShuntMilliVolts(Signed16(d.chip.shunt))
    ensures !d.chip.present ==> r.0 == 0.0
    ensures r.1 == d.(status := if d.chip.present then Ok else ReadRegError, log := d.log + [Read(ShuntVoltage)])
  {
    var read := ReadInaReg(d, ShuntVoltage);
    ZeroReadings();
    (CppShuntMilliVolts(read.0), read.1)
  }

  /** getCurrent_mA: the current register decoded, or 0 from a failed read. */
  function GetCurrent(d: Ina): (r: (int, Ina))
    ensures d.chip.present ==> r.0 == CurrentMilliAmps(Signed16(d.chip.current))
    ensures !d.chip.present ==> r.0 == 0
    ensures r.1 == d.(status := if d.chip.present then Ok else ReadRegError, log := d.log + [Read(Current)])
  {
    var read := ReadInaReg(d, Current);
    ZeroReadings();
    (CurrentMilliAmps(read.0), read.1)
  }

  /** getPower_mW: the power register decoded, or 0 from a failed read. */
  function GetPower(d: Ina): (r: (int, Ina))
    ensures d.chip.present ==> r.0 == PowerMilliWatts(Signed16(d.chip.power))
    ensures !d.chip.present ==> r.0 == 0
    ensures r.1 == d.(status := if d.chip.present then Ok else ReadRegError, log := d.log + [Read(Power)])
  {
    var read := ReadInaReg(d, Power);
    ZeroReadings();
    (PowerMilliWatts(read.0), read.1)
  }

  // ---------------------------------------------------------------------
  // Properties

  /** The word a configuration read hands the setters: the register's, or the zero of a failed read. */
  function Seen(c: Chip): Held
  {
    if c.present then c.config else 0
  }

  /** The signed reading of a register, or the zero of a failed read. */
  function Reading(c: Chip, reg: Register): Int16
  {
    if c.present then Signed16(Contents(c, reg)) else 0
  }

  /** The pattern of the configuration reading is the word the setters see: the `int16_t` detour loses nothing. */
  lemma ConfigReading(c: Chip)
    ensures WordOf(Reading(c, Config)) == Seen(c)
  {
    if c.present {
      WordOfSigned(c.config);
    } else {
      WordOfZero();
    }
  }

  /**
   * A setter reads the configuration, writes back the word it read with
   * its field replaced, and leaves the status Ok; a present chip then holds
   * that word, whose reset bit stays clear. Nothing else in the driver
   * changes.
   */
  lemma SetFieldEffect(d: Ina, f: Field, v: Word)
    requires v < f.Limit()
    ensures Insert(f, Seen(d.chip), v) & 0x8000 == 0
    ensures var w := Insert(f, Seen(d.chip), v);
      SetField(d, f, v) == d.(chip := if d.chip.present then Store(d.chip, w) else d.chip,
                             status := Ok, log := d.log + Rmw(w))
  {
    var d1 := d.(status := if d.chip.present then Ok else ReadRegError, log := d.log + [Read(Config)]);
    var w := Insert(f, Seen(d.chip), v);
    SetFieldStep(d, f, v);
    InsertKeepsTopBits(f, Seen(d.chip), v);
    WriteWord(d1, w);
    LogTwo(d.log, Read(Config), Write(Config, WordBytes(w)));
  }

  lemma SetFieldStep(d: Ina, f: Field, v: Word)
    requires v < f.Limit()
    ensures SetField(d, f, v)
         == WriteInaReg(d.(status := if d.chip.present then Ok else ReadRegError, log := d.log + [Read(Config)]),
                        Config, Value(Insert(f, Seen(d.chip), v)))
  {
    ConfigReading(d.chip);
  }

  /**
   * Writing a word to the configuration register sends its bytes; a present
   * chip then holds it, or resets if the word sets RST.
   */
  lemma WriteWord(d: Ina, w: Word)
    ensures WriteInaReg(d, Config, Value(w))
         == d.(chip := if d.chip.present then Store(d.chip, w) else d.chip,
               status := Ok, log := d.log + [Write(Config, WordBytes(w))])
  {
    assert Split(Value(w)) == WordBytes(w);
    Transfer.WordBytesRoundTrip(w);
  }

  /**
   * Every setter call: one the ADC guard refuses changes nothing; any other
   * performs one read-modify-write that applies the call's insertion to the
   * word it read.
   */
  lemma ApplyEffect(d: Ina, s: Setter)
    ensures s.Rejected() ==> Apply(d, s) == d
    ensures !s.Rejected() ==> var w := CppStep(Seen(d.chip), s);
      Apply(d, s) == d.(chip := if d.chip.present then d.chip.(config := w) else d.chip,
                        status := Ok, log := d.log + Rmw(w))
  {
    ApplyDispatch(d, s);
    if !s.Rejected() {
      ApplyWrites(d, s);
    }
  }

  /** A call the guard lets through is the read-modify-write of its step. */
  lemma ApplyWrites(d: Ina, s: Setter)
    requires !s.Rejected()
    ensures var w := CppStep(Seen(d.chip), s);
      SetField(d, s.Target(), s.CppArg())
        == d.(chip := if d.chip.present then d.chip.(config := w) else d.chip, status := Ok, log := d.log + Rmw(w))
  {
    SetFieldEffect(d, s.Target(), s.CppArg());
  }

  /** A setter call is the guard's silent return or the read-modify-write of its field. */
  lemma ApplyDispatch(d: Ina, s: Setter)
    ensures s.Rejected() ==> Apply(d, s) == d
    ensures !s.Rejected() ==> Apply(d, s) == SetField(d, s.Target(), s.CppArg())
  {
  }

  /** Calling any setter twice leaves the driver as calling it once, apart from the second call's traffic. */
  lemma ApplyIdempotent(d: Ina, s: Setter)
    ensures Apply(Apply(d, s), s).chip == Apply(d, s).chip
    ensures Apply(Apply(d, s), s).status == Apply(d, s).status
  {
    ApplyEffect(d, s);
    ApplyEffect(Apply(d, s), s);
    if !s.Rejected() && d.chip.present {
      InsertIdempotent(s.Target(), d.chip.config, s.CppArg());
    }
  }

  /** Setters of different fields commute. */
  lemma SettersCommute(d: Ina, f: Field, g: Field, u: Word, v: Word)
    requires f != g && u < f.Limit() && v < g.Limit()
    ensures SetField(SetField(d, g, v), f, u).chip == SetField(SetField(d, f, u), g, v).chip
  {
    if d.chip.present {
      SetFieldEffect(d, g, v);
      SetFieldEffect(SetField(d, g, v), f, u);
      SetFieldEffect(d, f, u);
      SetFieldEffect(SetField(d, f, u), g, v);
      InsertCommutes(f, g, d.chip.config, u, v);
    }
  }

  /**
   * Without a chip a setter still writes: the word it builds from the zero
   * its failed read returned. The status it leaves is Ok.
   */
  lemma SetFieldAbsent(d: Ina, f: Field, v: Word)
    requires !d.chip.present && v < f.Limit()
    ensures SetField(d, f, v) == d.(status := Ok, log := d.log + Rmw(Insert(f, 0, v)))
  {
    SetFieldEffect(d, f, v);
  }

  /**
   * The power-on configuration reset leaves selects the default settings
   * but a single sample on both ADCs.
   */
  lemma ResetSettings(d: Ina)
    requires d.chip.present
    ensures SettingsOf(Reset(d).chip.config)
         == DefaultSettings.(busAdc := (Bits12, Samples1), shuntAdc := (Bits12, Samples1))
  {
    assert Reset(d).chip.config == PowerOnConfig;
  }

  /**
   * The read-modify-writes a sequence of setter calls puts on the bus of a
   * present chip whose configuration was `w`: none for a call the guard
   * refuses, one per call otherwise.
   */
  function Traffic(w: Word, calls: seq<Setter>): seq<Access>
    decreases |calls|
  {
    if |calls| == 0 then []
    else (if calls[0].Rejected() then [] else Rmw(CppStep(w, calls[0]))) + Traffic(CppStep(w, calls[0]), calls[1..])
  }

  /**
   * Setter calls on a present chip leave it holding the word the calls make
   * of its configuration, and put their read-modify-writes on the bus.
   */
  lemma {:induction false} ApplyAllPresent(d: Ina, calls: seq<Setter>)
    requires d.chip.present
    ensures ApplyAll(d, calls).chip == d.chip.(config := CppSteps(d.chip.config, calls))
    ensures ApplyAll(d, calls).log == d.log + Traffic(d.chip.config, calls)
    decreases |calls|
  {
    if |calls| > 0 {
      var s := calls[0];
      var w := d.chip.config;
      var d1 := Apply(d, s);
      ApplyEffect(d, s);
      ApplyAllPresent(d1, calls[1..]);
      var head := if s.Rejected() then [] else Rmw(CppStep(w, s));
      assert d1.log == d.log + head;
      AppendAssoc(d.log, head, Traffic(CppStep(w, s), calls[1..]));
    }
  }

  /**
   * After the probe, on a present chip: the chip holds the word the calls
   * make and calValue 4096, which the driver also keeps; the status is Ok;
   * the bus sees the calls' read-modify-writes and then 0x10, 0x00 written
   * to the calibration register.
   */
  lemma ConfigurePresent(d: Ina, calls: seq<Setter>)
    requires d.chip.present
    ensures Configure(d, calls).chip == d.chip.(config := CppSteps(d.chip.config, calls), calibration := 4096)
    ensures Configure(d, calls).calValue == 4096 && Configure(d, calls).status == Ok
    ensures Configure(d, calls).log == d.log + Traffic(d.chip.config, calls) + [Write(Calibration, (0x10, 0x00))]
  {
    var d5 := ApplyAll(d, calls);
    ApplyAllPresent(d, calls);
    assert Split(4096) == (0x10, 0x00);
    ReceiveThenRead(d5.chip, 0, 4096);
  }

  /**
   * begin with a chip: true, status Ok, calValue 4096 in the driver and in
   * the calibration register, and the configuration selecting exactly the
   * default settings while bit 14 keeps its value. The bus sees the probe,
   * the setters' read-modify-writes and the calibration write.
   */
  lemma BeginPresent(d: Ina)
    requires d.chip.present
    ensures var w := d.chip.config;
      && Begin(d).0
      && Begin(d).1.status == Ok && Begin(d).1.calValue == 4096
      && Begin(d).1.chip.config == (w & 0x4000) | 0x3DDF
      && Begin(d).1.chip == d.chip.(config := Begin(d).1.chip.config, calibration := 4096)
      && SettingsOf(Begin(d).1.chip.config) == DefaultSettings
      && Begin(d).1.log == d.log + [Probe] + Traffic(w, BeginCalls) + [Write(Calibration, (0x10, 0x00))]
  {
    var d0 := d.(status := InitError, log := d.log + [Probe]);
    ConfigurePresent(d0, BeginCalls);
    CppBeginSteps(d.chip.config);
    assert (d.chip.config & 0xC000) | 0x3DDF == (d.chip.config & 0x4000) | 0x3DDF;
    CppDefaultSettings(d.chip.config);
  }

  /** begin's setters on a present chip make five read-modify-writes, one word per call. */
  lemma BeginTraffic(w: Word)
    ensures Traffic(w, BeginCalls) == Rmw((w & 0xDFFF) | 0x2000) + (Rmw((w & 0xC7FF) | 0x3800)
      + (Rmw((w & 0xC07F) | 0x3D80) + (Rmw((w & 0xC007) | 0x3DD8) + Rmw((w & 0xC000) | 0x3DDF))))
  {
    var w1: Word, w2: Word := (w & 0xDFFF) | 0x2000, (w & 0xC7FF) | 0x3800;
    var s3 := [SetBusAdc(Bits12, Samples8), SetShuntAdc(Bits12, Samples8), SetOpMode(ShuntBusContinuous)];
    assert BeginCalls == [SetRange(Range32V)] + ([SetGain(Gain8)] + s3);
    BeginTrafficTail(w);
    assert Traffic(w1, [SetGain(Gain8)] + s3) == Rmw(w2) + Traffic(w2, s3) by {
      CppBeginGain(w);
      TrafficCons(w1, SetGain(Gain8), s3, w2);
    }
    assert Traffic(w, BeginCalls) == Rmw(w1) + Traffic(w1, [SetGain(Gain8)] + s3) by {
      CppBeginRange(w);
      TrafficCons(w, SetRange(Range32V), [SetGain(Gain8)] + s3, w1);
    }
  }

  /** The last three calls of begin, from the word the first two leave. */
  lemma BeginTrafficTail(w: Word)
    ensures Traffic((w & 0xC7FF) | 0x3800, [SetBusAdc(Bits12, Samples8), SetShuntAdc(Bits12, Samples8), SetOpMode(ShuntBusContinuous)])
      == Rmw((w & 0xC07F) | 0x3D80) + (Rmw((w & 0xC007) | 0x3DD8) + Rmw((w & 0xC000) | 0x3DDF))
  {
    CppBeginBusAdc(w);
    CppBeginShuntAdc(w);
    CppBeginMode(w);
    var w2: Word, w3: Word := (w & 0xC7FF) | 0x3800, (w & 0xC07F) | 0x3D80;
    var w4: Word, w5: Word := (w & 0xC007) | 0x3DD8, (w & 0xC000) | 0x3DDF;
    var s5 := [SetOpMode(ShuntBusContinuous)];
    assert [SetBusAdc(Bits12, Samples8), SetShuntAdc(Bits12, Samples8), SetOpMode(ShuntBusContinuous)]
      == [SetBusAdc(Bits12, Samples8)] + ([SetShuntAdc(Bits12, Samples8)] + s5);
    assert s5 == [SetOpMode(ShuntBusContinuous)] + [];
    TrafficCons(w4, SetOpMode(ShuntBusContinuous), [], w5);
    assert Traffic(w5, []) == [];
    TrafficCons(w3, SetShuntAdc(Bits12, Samples8), s5, w4);
    TrafficCons(w2, SetBusAdc(Bits12, Samples8), [SetShuntAdc(Bits12, Samples8)] + s5, w3);
  }

  lemma TrafficCons(w: Word, s: Setter, rest: seq<Setter>, w': Word)
    requires !s.Rejected() && CppStep(w, s) == w'
    ensures Traffic(w, [s] + rest) == Rmw(w') + Traffic(w', rest)
  {
    assert ([s] + rest)[1..] == rest;
  }
}
