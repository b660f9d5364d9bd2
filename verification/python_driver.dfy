/**
 * The Python driver class INA219, in its two copies (the RespberryPi and
 * RaspberryPi directories), as a pure state transformer. A call either
 * returns a value or raises an exception; either way it yields the object
 * and the chip after it. smbus raises OSError for every transaction a
 * missing chip does not acknowledge.
 */
module PyDriver {
  import opened Wrappers
  import opened Bits
  import opened Registers
  import opened Config
  import opened Transfer
  import opened Measure
  import opened Calibration
  import opened Device
  import opened PyInt

  /** The two copies of the class; they differ only in the ADC setters' guard. */
  datatype Copy = RespberryPi | RaspberryPi

  /** The exceptions a call can raise. */
  datatype PyError = OSError | NameError | AttributeError | ZeroDivisionError

  /**
   * The driver object: the chip behind its bus and address, the attribute
   * cal_value (None until begin creates it) and the transactions started.
   */
  datatype Ina = Ina(chip: Chip, calValue: Option<int>, log: seq<Access>)

  /** How a call ends, with the object after it. */
  datatype Outcome<T> = Returned(value: T, after: Ina) | Raised(error: PyError, after: Ina)

  /**
   * read_ina_reg: read the register's bytes and take them as a signed
   * 16-bit value. Only the first two bytes of the block smbus returns are
   * used.
   */
  function ReadInaReg(d: Ina, reg: Register): (r: Outcome<Int16>)
    ensures r.after == d.(log := d.log + [Read(reg)])
    ensures r.Raised? <==> !d.chip.present
    ensures r.Raised? ==> r.error == OSError
    ensures r.Returned? ==> r.value == Signed16(Contents(d.chip, reg))
  {
    var d1 := d.(log := d.log + [Read(reg)]);
    if d.chip.present then
      var bytes := Bytes(d.chip, reg);
      Returned(PyReadInaReg(bytes.0, bytes.1), d1)
    else Raised(OSError, d1)
  }

  /**
   * _write_register: send `[value >> 8, value & 0xff]`, of which smbus keeps
   * the low 8 bits of each item.
   */
  function WriteRegister(d: Ina, reg: Register, value: int): (r: Outcome<()>)
    ensures r.Raised? <==> !d.chip.present
    ensures r.Raised? ==> r.error == OSError
    ensures 0 <= value < 0x10000 ==> r.after.log == d.log + [Write(reg, Split(value))]
    ensures 0 <= value < 0x10000 && d.chip.present ==> r.after.chip == Receive(d.chip, reg, Split(value))
    ensures r.after.calValue == d.calValue
  {
    var bytes := Transmit(PyWriteItems(value));
    PyWriteRoundTripIfNarrow(value);
    var d1 := d.(log := d.log + [Write(reg, bytes)]);
    if d.chip.present then Returned((), d1.(chip := Receive(d.chip, reg, bytes))) else Raised(OSError, d1)
  }

  lemma PyWriteRoundTripIfNarrow(value: int)
    ensures 0 <= value < 0x10000 ==> Transmit(PyWriteItems(value)) == Split(value)
  {
    if 0 <= value < 0x10000 {
      PyWriteRoundTrip(value);
    }
  }

  /**
   * The read-modify-write of every setter: read the configuration as a
   * signed int, clear the field's mask, OR in the argument shifted to the
   * field, write the int back. Every argument the setters pass keeps the
   * shifted value below 2^16, so the 16-bit shift is Python's. Without a
   * chip the read raises OSError; with one, an argument that fits its
   * field changes that field alone. cal_value is untouched.
   */
  function SetField(d: Ina, f: Field, v: Word): (r: Outcome<()>)
    ensures r.Raised? <==> !d.chip.present
    ensures r.Raised? ==> r == Raised(OSError, d.(log := d.log + [Read(Config)]))
    ensures r.after.calValue == d.calValue
    ensures d.chip.present && v < f.Limit() ==>
      && f.Get(r.after.chip.config) == v
      && SameOutside(f, r.after.chip.config, d.chip.config)
      && r.after.chip == d.chip.(config := r.after.chip.config)
  {
    match ReadInaReg(d, Config)
    case Raised(e, d1) => Raised(e, d1)
    case Returned(conf, d1) =>
      WordOfSigned(d.chip.config);
      WriteFieldOnly(d1, f, v);
      WriteRegister(d1, Config, Or(AndNot(OfReading(WordOf(conf)), f.Mask()), f.Place(v)).Int())
  }

  /**
   * The write of a setter on a present chip, for an argument that fits:
   * the chip's field holds the argument, and nothing else in it changes.
   */
  lemma WriteFieldOnly(d: Ina, f: Field, v: Word)
    ensures var r := WriteRegister(d, Config, Or(AndNot(OfReading(d.chip.config), f.Mask()), f.Place(v)).Int());
      d.chip.present && v < f.Limit() ==>
        && f.Get(r.after.chip.config) == v
        && SameOutside(f, r.after.chip.config, d.chip.config)
        && r.after.chip == d.chip.(config := r.after.chip.config)
  {
    if d.chip.present && v < f.Limit() {
      var x := Or(AndNot(OfReading(d.chip.config), f.Mask()), f.Place(v));
      SetFieldWord(d.chip.config, f, v);
      InsertKeepsTopBits(f, d.chip.config, v);
      WriteWord(d, x);
    }
  }

  /** set_bus_RNG: on a present chip the range bit holds the argument's code and no other bit changes. */
  function SetBusRng(d: Ina, range: BusRange): (r: Outcome<()>)
    ensures r.Raised? <==> !d.chip.present
    ensures d.chip.present ==> BusRangeField.Get(r.after.chip.config) == range.Code()
    ensures d.chip.present ==> SameOutside(BusRangeField, r.after.chip.config, d.chip.config)
    ensures r.after.chip == d.chip.(config := r.after.chip.config) && r.after.calValue == d.calValue
  {
    var v := range.Code();
    assert v < BusRangeField.Limit();
    SetField(d, BusRangeField, v)
  }

  /** set_PGA: on a present chip the gain bits hold the argument's code and no other bit changes. */
  function SetPga(d: Ina, gain: PgaGain): (r: Outcome<()>)
    ensures r.Raised? <==> !d.chip.present
    ensures d.chip.present ==> PgaField.Get(r.after.chip.config) == gain.Code()
    ensures d.chip.present ==> SameOutside(PgaField, r.after.chip.config, d.chip.config)
    ensures r.after.chip == d.chip.(config := r.after.chip.config) && r.after.calValue == d.calValue
  {
    var v := gain.Code();
    assert v < PgaField.Limit();
    SetField(d, PgaField, v)
  }

  /**
   * The ADC setters' guard `bits < adc_bits_12 and sample > adc_sample_1`.
   * The RaspberryPi copy names the sample constant without `self.`, so
   * whenever the first operand holds, evaluating the second raises
   * NameError before any transaction. NameError arises in that copy alone,
   * for every resolution below 12 bits; a refused setting returns silently.
   */
  function AdcGuard(copy: Copy, d: Ina, bits: AdcBits, sample: AdcSample, field: Field): (r: Outcome<()>)
    ensures r.Raised? && r.error == NameError <==> copy == RaspberryPi && bits != Bits12
    ensures r.Raised? && r.error == NameError ==> r.after == d
    ensures !(copy == RaspberryPi && bits != Bits12) && AdcRejects(bits, sample) ==> r == Returned((), d)
    ensures r.after.calValue == d.calValue
  {
    if copy == RaspberryPi && bits.Code() < Bits12.Code() then Raised(NameError, d)
    else if AdcRejects(bits, sample) then Returned((), d)
    else SetField(d, field, PyAdcField(bits, sample))
  }

  /**
   * set_bus_ADC. In the RespberryPi copy a resolution below 12 bits with a
   * single sample, which the guard lets through, reaches bits 7-10 as the
   * chip's code for it, and no other bit changes.
   */
  function SetBusAdc(copy: Copy, d: Ina, bits: AdcBits, sample: AdcSample): (r: Outcome<()>)
    ensures copy == RespberryPi && d.chip.present && bits != Bits12 && !AdcRejects(bits, sample) ==>
      && r.Returned?
      && AdcSetting(BusAdcField.Get(r.after.chip.config)) == (bits, sample)
      && SameOutside(BusAdcField, r.after.chip.config, d.chip.config)
  {
    if copy == RespberryPi && bits != Bits12 && !AdcRejects(bits, sample) then
      var v := AdcField(bits, sample);
      ReducedResolution(bits, sample);
      assert AdcGuard(copy, d, bits, sample, BusAdcField) == SetField(d, BusAdcField, v);
      assert v < BusAdcField.Limit() && AdcSetting(v) == (bits, sample);
      var r := SetField(d, BusAdcField, v);
      assert d.chip.present ==> r.Returned? && BusAdcField.Get(r.after.chip.config) == v;
      r
    else AdcGuard(copy, d, bits, sample, BusAdcField)
  }

  /** set_shunt_ADC: as set_bus_ADC, for bits 3-6. */
  function SetShuntAdc(copy: Copy, d: Ina, bits: AdcBits, sample: AdcSample): (r: Outcome<()>)
    ensures copy == RespberryPi && d.chip.present && bits != Bits12 && !AdcRejects(bits, sample) ==>
      && r.Returned?
      && AdcSetting(ShuntAdcField.Get(r.after.chip.config)) == (bits, sample)
      && SameOutside(ShuntAdcField, r.after.chip.config, d.chip.config)
  {
    if copy == RespberryPi && bits != Bits12 && !AdcRejects(bits, sample) then
      var v := AdcField(bits, sample);
      ReducedResolution(bits, sample);
      assert AdcGuard(copy, d, bits, sample, ShuntAdcField) == SetField(d, ShuntAdcField, v);
      assert v < ShuntAdcField.Limit() && AdcSetting(v) == (bits, sample);
      var r := SetField(d, ShuntAdcField, v);
      assert d.chip.present ==> r.Returned? && ShuntAdcField.Get(r.after.chip.config) == v;
      r
    else AdcGuard(copy, d, bits, sample, ShuntAdcField)
  }

  /**
   * Below 12 bits a setting the guard accepts has one sample, and the Python
   * value for it is the C++ one, which fits the 4-bit field and decodes back.
   */
  lemma ReducedResolution(bits: AdcBits, sample: AdcSample)
    ensures bits != Bits12 && !AdcRejects(bits, sample) ==>
      PyAdcField(bits, sample) == AdcField(bits, sample) < 16 && AdcSetting(AdcField(bits, sample)) == (bits, sample)
  {
    if bits != Bits12 && !AdcRejects(bits, sample) {
      AdcRoundTrip(bits, sample);
    }
  }

  /** set_mode: on a present chip the mode bits hold the argument's code and no other bit changes. */
  function SetMode(d: Ina, mode: Mode): (r: Outcome<()>)
    ensures r.Raised? <==> !d.chip.present
    ensures d.chip.present ==> ModeField.Get(r.after.chip.config) == mode.Code()
    ensures d.chip.present ==> SameOutside(ModeField, r.after.chip.config, d.chip.config)
    ensures r.after.chip == d.chip.(config := r.after.chip.config) && r.after.calValue == d.calValue
  {
    var v := mode.Code();
    assert v < ModeField.Limit();
    SetField(d, ModeField, v)
  }

  /**
   * reset as written: it names `self._INA219_CONFIG_RESET`, but the class
   * defines the constant without the leading underscore, so the attribute
   * lookup raises before anything is written: the object, the chip and the
   * bus are left as they were.
   */
  function Reset(d: Ina): (r: Outcome<()>)
    ensures r.Raised? && r.error == AttributeError
    ensures r.after == d
  {
    Raised(AttributeError, d)
  }

  /**
   * reset as intended: write INA219_CONFIG_RESET to the configuration
   * register. The bytes are 0x80, 0x00; a present chip takes them as RST and
   * returns to its power-on state, and without a chip the write raises
   * OSError.
   */
  function ResetIntended(d: Ina): (r: Outcome<()>)
    ensures r.after.log == d.log + [Write(Config, (0x80, 0x00))]
    ensures r.Raised? <==> !d.chip.present
    ensures r.Raised? ==> r.error == OSError && r.after.chip == d.chip
    ensures d.chip.present ==> r.after.chip == PowerOn(d.chip)
    ensures r.after.calValue == d.calValue
  {
    assert Value(ConfigReset) == 0x8000;
    assert WordBytes(ConfigReset) == (0x80, 0x00);
    assert Split(0x8000) == (0x80, 0x00);
    ReceiveThenRead(d.chip, ConfigReset, 0);
    WriteRegister(d, Config, Value(ConfigReset))
  }

  /** A setter call, dispatched to the method it names; cal_value is untouched. */
  function Apply(copy: Copy, d: Ina, s: Setter): (r: Outcome<()>)
    ensures r.after.calValue == d.calValue
  {
    match s
    case SetRange(range) => SetBusRng(d, range)
    case SetGain(gain) => SetPga(d, gain)
    case SetBusAdc(bits, sample) => SetBusAdc(copy, d, bits, sample)
    case SetShuntAdc(bits, sample) => SetShuntAdc(copy, d, bits, sample)
    case SetOpMode(mode) => SetMode(d, mode)
  }

  /** Setter calls made one after another; the first exception ends the sequence. cal_value is untouched. */
  function ApplyAll(copy: Copy, d: Ina, calls: seq<Setter>): (r: Outcome<()>)
    ensures r.after.calValue == d.calValue
    decreases |calls|
  {
    if |calls| == 0 then Returned((), d)
    else match Apply(copy, d, calls[0])
      case Raised(e, d1) => Raised(e, d1)
      case Returned(_, d1) => ApplyAll(copy, d1, calls[1..])
  }

  /**
   * begin: scan probes the address and swallows the failure; on success
   * cal_value becomes 4096 and the five defaults are applied in order.
   * Nothing is written to the calibration register. Both copies return,
   * and the value says whether the chip answered; a failed probe changes
   * nothing else.
   */
  function Begin(copy: Copy, d: Ina): (r: Outcome<bool>)
    ensures r.Returned? && r.value == d.chip.present
    ensures !d.chip.present ==> r.after == d.(log := d.log + [Probe])
    ensures d.chip.present ==> r.after.calValue == Some(4096) && r.after.chip.calibration == d.chip.calibration
  {
    var d0 := d.(log := d.log + [Probe]);
    BeginRaisesNothing(copy);
    if !d.chip.present then Returned(false, d0) else Configure(copy, d0, BeginCalls)
  }

  /**
   * The part of begin after a successful probe: cal_value is 4096 whatever
   * happens; on a present chip, calls that raise no NameError return True
   * and leave the calibration register alone.
   */
  function Configure(copy: Copy, d: Ina, calls: seq<Setter>): (r: Outcome<bool>)
    ensures r.after.calValue == Some(4096)
    ensures r.Returned? ==> r.value
    ensures d.chip.present && NoNameError(copy, calls) ==> r.Returned? && r.after.chip.calibration == d.chip.calibration
  {
    var d0 := d.(calValue := Some(DefaultCalibration));
    var out := match ApplyAll(copy, d0, calls)
      case Raised(e, d1) => Raised(e, d1)
      case Returned(_, d1) => Returned(true, d1);
    if d.chip.present && NoNameError(copy, calls) then ApplyAllPresent(copy, d0, calls); out else out
  }

  /**
   * linear_cal: the division comes first and raises on a zero reading; the
   * product then looks up cal_value, which only begin creates. The new value
   * is stored before it is written. It returns only after begin, with a
   * non-zero reading and a chip that takes the write.
   */
  function LinearCal(d: Ina, ina: real, ext: real): (r: Outcome<()>)
    ensures ina == 0.0 ==> r == Raised(ZeroDivisionError, d)
    ensures ina != 0.0 && d.calValue.None? ==> r == Raised(AttributeError, d)
    ensures r.Returned? <==> ina != 0.0 && d.calValue.Some? && d.chip.present
  {
    if ina == 0.0 then Raised(ZeroDivisionError, d)
    else match d.calValue
      case None => Raised(AttributeError, d)
      case Some(cal) =>
        var c := PyLinearCal(cal, ina, ext);
        WriteRegister(d.(calValue := Some(c)), Calibration, c)
  }

  /**
   * A getter: read the register and decode the reading. On a present chip
   * it returns the decoded signed register; without one it raises OSError
   * at the read. Either way the read is the only transaction.
   */
  function Get<T>(d: Ina, reg: Register, decode: Int16 -> T): (r: Outcome<T>)
    ensures r.after == d.(log := d.log + [Read(reg)])
    ensures d.chip.present ==> r == Returned(decode(Signed16(Contents(d.chip, reg))), r.after)
    ensures !d.chip.present ==> r.Raised? && r.error == OSError
  {
    match ReadInaReg(d, reg)
    case Raised(e, d1) => Raised(e, d1)
    case Returned(reading, d1) => Returned(decode(reading), d1)
  }

  /** get_bus_voltage_V, in mV: `read >> 1`. */
  function GetBusVoltage(d: Ina): (r: Outcome<int>)
    ensures r.Raised? <==> !d.chip.present
    ensures r.after == d.(log := d.log + [Read(BusVoltage)])
    ensures d.chip.present ==> r.value == BusMilliVolts(Signed16(d.chip.bus))
  {
    Get(d, BusVoltage, BusMilliVolts)
  }

  /** get_shunt_voltage_mV: the signed count of 10 uV steps, unscaled. */
  function GetShuntVoltage(d: Ina): (r: Outcome<real>)
    ensures r.Raised? <==> !d.chip.present
    ensures r.after == d.(log := d.log + [Read(ShuntVoltage)])
    ensures d.chip.present ==> r.value == Signed16(d.chip.shunt) as real
  {
    Get(d, ShuntVoltage, PyShuntMilliVolts)
  }

  /** get_current_mA: the signed current register. */
  function GetCurrent(d: Ina): (r: Outcome<int>)
    ensures r.Raised? <==> !d.chip.present
    ensures r.after == d.(log := d.log + [Read(Current)])
    ensures d.chip.present ==> r.value == Signed16(d.chip.current)
  {
    Get(d, Current, CurrentMilliAmps)
  }

  /** get_power_mW: 20 times the power register read as signed. */
  function GetPower(d: Ina): (r: Outcome<int>)
    ensures r.Raised? <==> !d.chip.present
    ensures r.after == d.(log := d.log + [Read(Power)])
    ensures d.chip.present ==> r.value == 20 * Signed16(d.chip.power)
  {
    Get(d, Power, PowerMilliWatts)
  }

  // ---------------------------------------------------------------------
  // Properties

  /**
   * On a present chip a setter reads the configuration and writes back the
   * word with its field replaced: the sign bits Python's int carries above
   * bit 15 never reach the bus. An argument shifted into bit 15 sets RST.
   */
  lemma SetFieldPresent(d: Ina, f: Field, v: Word)
    requires d.chip.present
    ensures var w := Insert(f, d.chip.config, v);
      SetField(d, f, v) == Returned((), d.(chip := Store(d.chip, w), log := d.log + Rmw(w)))
  {
    var d1 := d.(log := d.log + [Read(Config)]);
    var x := Or(AndNot(OfReading(d.chip.config), f.Mask()), f.Place(v));
    SetFieldRead(d, f, v);
    SetFieldWord(d.chip.config, f, v);
    WriteWord(d1, x);
    LogTwo(d.log, Read(Config), Write(Config, WordBytes(x.low)));
  }

  lemma SetFieldRead(d: Ina, f: Field, v: Word)
    requires d.chip.present
    ensures SetField(d, f, v) == WriteRegister(d.(log := d.log + [Read(Config)]), Config,
                                               Or(AndNot(OfReading(d.chip.config), f.Mask()), f.Place(v)).Int())
  {
    WordOfSigned(d.chip.config);
  }

  /** The low word of the int a setter writes is the word with the field replaced. */
  lemma SetFieldWord(c: Word, f: Field, v: Word)
    ensures Or(AndNot(OfReading(c), f.Mask()), f.Place(v)).low == Insert(f, c, v)
  {
    ClearThenSet(OfReading(c), f.Mask(), f.Place(v));
  }

  /**
   * Writing a Python int to the configuration register of a present chip
   * sends its low word, which the chip holds, or takes as RST.
   */
  lemma WriteWord(d: Ina, x: Wide)
    requires d.chip.present
    ensures WriteRegister(d, Config, x.Int())
         == Returned((), d.(chip := Store(d.chip, x.low), log := d.log + [Write(Config, WordBytes(x.low))]))
  {
    WriteWide(x);
    Transfer.WordBytesRoundTrip(x.low);
  }

  /** A setter call the RaspberryPi copy's guard turns into NameError: an ADC call below 12 bits. */
  predicate NameErrorOn(copy: Copy, s: Setter)
  {
    copy == RaspberryPi && match s
      case SetBusAdc(bits, _) => bits != Bits12
      case SetShuntAdc(bits, _) => bits != Bits12
      case _ => false
  }

  /**
   * Every setter call of either copy: NameError before any transaction, a
   * silent return for a setting the guard refuses, otherwise one
   * read-modify-write that applies the Python argument to the word read.
   */
  lemma ApplyEffect(copy: Copy, d: Ina, s: Setter)
    ensures NameErrorOn(copy, s) ==> Apply(copy, d, s) == Raised(NameError, d)
    ensures !NameErrorOn(copy, s) && s.Rejected() ==> Apply(copy, d, s) == Returned((), d)
    ensures !NameErrorOn(copy, s) && !s.Rejected() ==> Apply(copy, d, s) == SetField(d, s.Target(), s.PyArg())
  {
  }

  /** A setter call that raises nothing, on a present chip, moves the configuration one Python step. */
  lemma ApplyPresent(copy: Copy, d: Ina, s: Setter)
    requires d.chip.present && !NameErrorOn(copy, s)
    ensures var w := PyStep(d.chip.config, s);
      Apply(copy, d, s) == Returned((), d.(chip := d.chip.(config := w),
                                           log := d.log + if s.Rejected() then [] else Rmw(w)))
  {
    if s.Rejected() {
      ApplyRejected(copy, d, s);
    } else {
      ApplyWrites(copy, d, s);
    }
  }

  lemma ApplyRejected(copy: Copy, d: Ina, s: Setter)
    requires !NameErrorOn(copy, s) && s.Rejected()
    ensures Apply(copy, d, s) == Returned((), d.(chip := d.chip.(config := PyStep(d.chip.config, s)), log := d.log + []))
  {
    ApplyEffect(copy, d, s);
    assert d.log + [] == d.log;
  }

  lemma ApplyWrites(copy: Copy, d: Ina, s: Setter)
    requires d.chip.present && !NameErrorOn(copy, s) && !s.Rejected()
    ensures var w := PyStep(d.chip.config, s);
      Apply(copy, d, s) == Returned((), d.(chip := d.chip.(config := w), log := d.log + Rmw(w)))
  {
    ApplyEffect(copy, d, s);
    SetFieldPresent(d, s.Target(), s.PyArg());
  }

  /** The read-modify-writes a sequence of Python setter calls puts on the bus of a present chip holding `w`. */
  function PyTraffic(w: Word, calls: seq<Setter>): seq<Access>
    decreases |calls|
  {
    if |calls| == 0 then []
    else (if calls[0].Rejected() then [] else Rmw(PyStep(w, calls[0]))) + PyTraffic(PyStep(w, calls[0]), calls[1..])
  }

  /** No call of the sequence raises NameError in the given copy. */
  predicate NoNameError(copy: Copy, calls: seq<Setter>)
  {
    forall i :: 0 <= i < |calls| ==> !NameErrorOn(copy, calls[i])
  }

  /**
   * Setter calls that raise no NameError, on a present chip, return; the
   * chip then holds the word the calls make of its configuration and the bus
   * has seen their read-modify-writes. cal_value is untouched.
   */
  lemma {:induction false} ApplyAllPresent(copy: Copy, d: Ina, calls: seq<Setter>)
    requires d.chip.present && NoNameError(copy, calls)
    ensures ApplyAll(copy, d, calls).Returned?
    ensures ApplyAll(copy, d, calls).after
         == d.(chip := d.chip.(config := PySteps(d.chip.config, calls)), log := d.log + PyTraffic(d.chip.config, calls))
    decreases |calls|
  {
    if |calls| > 0 {
      var s := calls[0];
      var w := d.chip.config;
      assert !NameErrorOn(copy, calls[0]);
      ApplyPresent(copy, d, s);
      var head := if s.Rejected() then [] else Rmw(PyStep(w, s));
      var d1 := d.(chip := d.chip.(config := PyStep(w, s)), log := d.log + head);
      assert NoNameError(copy, calls[1..]) by {
        forall i | 0 <= i < |calls[1..]| ensures !NameErrorOn(copy, calls[1..][i]) {
          assert calls[1..][i] == calls[i + 1];
        }
      }
      ApplyAllPresent(copy, d1, calls[1..]);
      AppendAssoc(d.log, head, PyTraffic(PyStep(w, s), calls[1..]));
    }
  }

  /**
   * After the probe, on a present chip, calls that raise no NameError: True,
   * cal_value 4096, the chip holding the word the calls make, the bus seeing
   * their read-modify-writes, and the calibration register untouched.
   */
  lemma ConfigurePresent(copy: Copy, d: Ina, calls: seq<Setter>)
    requires d.chip.present && NoNameError(copy, calls)
    ensures Configure(copy, d, calls)
         == Returned(true, d.(chip := d.chip.(config := PySteps(d.chip.config, calls)), calValue := Some(4096),
                              log := d.log + PyTraffic(d.chip.config, calls)))
  {
    ApplyAllPresent(copy, d.(calValue := Some(DefaultCalibration)), calls);
  }

  /**
   * begin with a chip, in either copy: True; cal_value 4096 but the
   * calibration register as it was; the configuration becomes 0x7D9F. The
   * bus sees the probe and the setters' read-modify-writes.
   */
  lemma BeginPresent(copy: Copy, d: Ina)
    requires d.chip.present
    ensures Begin(copy, d) == Returned(true, d.(chip := d.chip.(config := 0x7D9F),
      calValue := Some(4096), log := d.log + [Probe] + PyTraffic(d.chip.config, BeginCalls)))
  {
    var d0 := d.(log := d.log + [Probe]);
    BeginRaisesNothing(copy);
    ConfigurePresent(copy, d0, BeginCalls);
    PyBeginSteps(d.chip.config);
    assert (d.chip.config & 0x8000) | 0x7D9F == 0x7D9F;
  }

  /** The configuration begin leaves selects the defaults except for a single-sample shunt ADC. */
  lemma BeginSettings(copy: Copy, d: Ina)
    requires d.chip.present
    ensures SettingsOf(Begin(copy, d).after.chip.config) == DefaultSettings.(shuntAdc := (Bits12, Samples1))
  {
    BeginPresent(copy, d);
    PyDefaultSettings(d.chip.config);
  }

  /** begin's calls are all at 12 bits, so neither copy's guard raises on them. */
  lemma BeginRaisesNothing(copy: Copy)
    ensures NoNameError(copy, BeginCalls)
  {
    forall i | 0 <= i < |BeginCalls| ensures !NameErrorOn(copy, BeginCalls[i]) {
    }
  }

  /** The RespberryPi guard: a reduced resolution with averaging returns before any transaction. */
  lemma RespberryGuard(d: Ina, bits: AdcBits, sample: AdcSample)
    requires AdcRejects(bits, sample)
    ensures SetBusAdc(RespberryPi, d, bits, sample) == Returned((), d)
    ensures SetShuntAdc(RespberryPi, d, bits, sample) == Returned((), d)
  {
  }

  /**
   * The RaspberryPi guard: every resolution below 12 bits raises NameError
   * before any transaction, including the single-sample settings the chip
   * supports; at 12 bits the two copies behave alike.
   */
  lemma RaspberryGuard(d: Ina, bits: AdcBits, sample: AdcSample)
    ensures bits != Bits12 ==> SetBusAdc(RaspberryPi, d, bits, sample) == Raised(NameError, d)
    ensures bits != Bits12 ==> SetShuntAdc(RaspberryPi, d, bits, sample) == Raised(NameError, d)
    ensures bits == Bits12 ==> SetBusAdc(RaspberryPi, d, bits, sample) == SetBusAdc(RespberryPi, d, bits, sample)
    ensures bits == Bits12 ==> SetShuntAdc(RaspberryPi, d, bits, sample) == SetShuntAdc(RespberryPi, d, bits, sample)
  {
  }

  /** On a present chip, calling a setter twice leaves the chip as calling it once. */
  lemma ApplyIdempotent(copy: Copy, d: Ina, s: Setter)
    requires d.chip.present && !NameErrorOn(copy, s)
    ensures Apply(copy, Apply(copy, d, s).after, s).after.chip == Apply(copy, d, s).after.chip
  {
    ApplyPresent(copy, d, s);
    ApplyPresent(copy, Apply(copy, d, s).after, s);
    if !s.Rejected() {
      InsertIdempotent(s.Target(), d.chip.config, s.PyArg());
    }
  }

  /**
   * reset as written against reset as intended: nothing reaches the bus
   * where 0x80, 0x00 should, and a present chip whose configuration is not
   * the power-on word keeps it instead of being reset.
   */
  lemma ResetNeverWrites(d: Ina)
    ensures Reset(d).after.log == d.log != ResetIntended(d).after.log
    ensures d.chip.present && d.chip.config != PowerOnConfig ==> Reset(d).after.chip != ResetIntended(d).after.chip
  {
  }

  /**
   * linear_cal after begin: the new value, even and at most 0xFFFE, is kept in
   * cal_value and written, high byte first, to the calibration register; a
   * present chip then holds it. A missing chip raises OSError at the write,
   * after cal_value has changed.
   */
  lemma LinearCalWrites(d: Ina, ina: real, ext: real)
    requires ina != 0.0 && d.calValue.Some?
    ensures var c := PyLinearCal(d.calValue.value, ina, ext);
      && 0 <= c <= 0xFFFE && c % 2 == 0
      && LinearCal(d, ina, ext).after.calValue == Some(c)
      && LinearCal(d, ina, ext).after.log == d.log + [Write(Calibration, Split(c))]
      && (LinearCal(d, ina, ext).Returned? <==> d.chip.present)
      && (d.chip.present ==> LinearCal(d, ina, ext).after.chip == d.chip.(calibration := c))
      && (!d.chip.present ==> LinearCal(d, ina, ext).error == OSError)
  {
    var c := PyLinearCal(d.calValue.value, ina, ext);
    ReceiveThenRead(d.chip, 0, c);
  }

}
