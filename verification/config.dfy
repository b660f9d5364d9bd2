/**
 * The configuration register (0x00) as a packed bit field, the
 * read-modify-write step every field setter performs on it, and the encoding
 * of ADC resolution/averaging into a 4-bit field.
 *
 * Layout: bit 13 BRNG, bits 11-12 PGA, bits 7-10 BADC, bits 3-6 SADC,
 * bits 0-2 MODE; bits 14 and 15 belong to no field (15 is the reset bit).
 */
module Config {
  import opened Bits
  import opened Registers
  import FieldBits

  /** The five fields of the configuration register. */
  datatype Field = BusRangeField | PgaField | BusAdcField | ShuntAdcField | ModeField {

    /** The field's bits: the mask each setter clears (1 << 13, 0x03 << 11, 0x0F << 7, 0x0F << 3, 0x07). */
    function Mask(): Word
    {
      match this
      case BusRangeField => 0x2000
      case PgaField => 0x1800
      case BusAdcField => 0x0780
      case ShuntAdcField => 0x0078
      case ModeField => 0x0007
    }

    /** The number of values the field holds: 2 to the power of its width. */
    function Limit(): Word
    {
      match this
      case BusRangeField => 2
      case PgaField => 4
      case BusAdcField => 16
      case ShuntAdcField => 16
      case ModeField => 8
    }

    /** `v` shifted to the field's position, as the setters shift their argument. */
    function Place(v: Word): Word
    {
      match this
      case BusRangeField => v << 13
      case PgaField => v << 11
      case BusAdcField => v << 7
      case ShuntAdcField => v << 3
      case ModeField => v
    }

    /** The field's value in a configuration word. */
    function Get(w: Word): Word
    {
      match this
      case BusRangeField => (w & Mask()) >> 13
      case PgaField => (w & Mask()) >> 11
      case BusAdcField => (w & Mask()) >> 7
      case ShuntAdcField => (w & Mask()) >> 3
      case ModeField => w & Mask()
    }
  }

  /**
   * The read-modify-write step of every setter: clear the field's mask in the
   * word read, OR in the argument shifted to the field's position. The
   * argument may be wider than the field (the Python 12-bit ADC marker is),
   * so the properties below say when they need it to fit. An argument that
   * fits leaves the field holding it and every other bit as it was.
   */
  function Insert(f: Field, w: Word, v: Word): (r: Word)
    ensures v < f.Limit() ==> f.Get(r) == v
    ensures v < f.Limit() ==> SameOutside(f, r, w)
  {
    (w & !f.Mask()) | f.Place(v)
  }

  /** A field's value fits the field. */
  lemma GetFits(f: Field, w: Word)
    ensures f.Get(w) < f.Limit()
  {
  }

  /** Two words agree on every bit outside a field. */
  predicate SameOutside(f: Field, a: Word, b: Word)
  {
    a & !f.Mask() == b & !f.Mask()
  }

  /**
   * Whatever the argument, a setter keeps every bit that neither its mask
   * nor its shifted argument covers.
   */
  lemma InsertKeepsUncovered(f: Field, w: Word, v: Word)
    ensures Insert(f, w, v) & !(f.Mask() | f.Place(v)) == w & !(f.Mask() | f.Place(v))
  {
  }

  /** Applying the same setter twice leaves the word as applying it once, whatever the argument. */
  lemma InsertIdempotent(f: Field, w: Word, v: Word)
    ensures Insert(f, Insert(f, w, v), v) == Insert(f, w, v)
  {
  }

  /** Writing a field's current value back changes nothing. */
  lemma InsertCurrent(f: Field, w: Word)
    ensures Insert(f, w, f.Get(w)) == w
  {
    CurrentOfBusRange(f, w);
    CurrentOfPga(f, w);
    CurrentOfBusAdc(f, w);
    CurrentOfShuntAdc(f, w);
    CurrentOfMode(f, w);
  }

  /** Setters on different fields commute when their arguments fit. */
  lemma InsertCommutes(f: Field, g: Field, w: Word, u: Word, v: Word)
    requires f != g && u < f.Limit() && v < g.Limit()
    ensures Insert(f, Insert(g, w, v), u) == Insert(g, Insert(f, w, u), v)
  {
    CommutesWithBusRange(f, g, w, u, v);
    CommutesWithPga(f, g, w, u, v);
    CommutesWithBusAdc(f, g, w, u, v);
    CommutesWithShuntAdc(f, g, w, u, v);
    CommutesWithMode(f, g, w, u, v);
  }

  /** The field masks cover bits 0 to 13; bits 14 and 15 belong to no field. */
  lemma MasksCover()
    ensures BusRangeField.Mask() | PgaField.Mask() | BusAdcField.Mask()
            | ShuntAdcField.Mask() | ModeField.Mask() == 0x3FFF
  {
  }

  /** The header's bus-voltage-range mask is the bit setBRNG clears; the reset word sets no field. */
  lemma HeaderConstants(f: Field)
    ensures BusRangeField.Mask() == BusVoltageRangeMask
    ensures ConfigReset == 1 << 15 && f.Get(ConfigReset) == 0
  {
  }

  // The field-by-field cases behind InsertCurrent and InsertCommutes.

  lemma CurrentOfBusRange(f: Field, w: Word)
    ensures f == BusRangeField ==> Insert(f, w, f.Get(w)) == w
  {
    if f == BusRangeField { FieldBits.BusRangeCurrent(w); }
  }

  lemma CurrentOfPga(f: Field, w: Word)
    ensures f == PgaField ==> Insert(f, w, f.Get(w)) == w
  {
    if f == PgaField { FieldBits.PgaCurrent(w); }
  }

  lemma CurrentOfBusAdc(f: Field, w: Word)
    ensures f == BusAdcField ==> Insert(f, w, f.Get(w)) == w
  {
    if f == BusAdcField { FieldBits.BusAdcCurrent(w); }
  }

  lemma CurrentOfShuntAdc(f: Field, w: Word)
    ensures f == ShuntAdcField ==> Insert(f, w, f.Get(w)) == w
  {
    if f == ShuntAdcField { FieldBits.ShuntAdcCurrent(w); }
  }

  lemma CurrentOfMode(f: Field, w: Word)
    ensures f == ModeField ==> Insert(f, w, f.Get(w)) == w
  {
    if f == ModeField { FieldBits.ModeCurrent(w); }
  }

  lemma CommuteBusRangePga(w: Word, u: Word, v: Word)
    ensures u < BusRangeField.Limit() && v < PgaField.Limit() ==>
      Insert(BusRangeField, Insert(PgaField, w, v), u) == Insert(PgaField, Insert(BusRangeField, w, u), v)
  {
    if u < 2 && v < 4 { FieldBits.BusRangePgaCommute(w, u, v); }
  }

  lemma CommuteBusRangeBusAdc(w: Word, u: Word, v: Word)
    ensures u < BusRangeField.Limit() && v < BusAdcField.Limit() ==>
      Insert(BusRangeField, Insert(BusAdcField, w, v), u) == Insert(BusAdcField, Insert(BusRangeField, w, u), v)
  {
    if u < 2 && v < 16 { FieldBits.BusRangeBusAdcCommute(w, u, v); }
  }

  lemma CommuteBusRangeShuntAdc(w: Word, u: Word, v: Word)
    ensures u < BusRangeField.Limit() && v < ShuntAdcField.Limit() ==>
      Insert(BusRangeField, Insert(ShuntAdcField, w, v), u) == Insert(ShuntAdcField, Insert(BusRangeField, w, u), v)
  {
    if u < 2 && v < 16 { FieldBits.BusRangeShuntAdcCommute(w, u, v); }
  }

  lemma CommuteBusRangeMode(w: Word, u: Word, v: Word)
    ensures u < BusRangeField.Limit() && v < ModeField.Limit() ==>
      Insert(BusRangeField, Insert(ModeField, w, v), u) == Insert(ModeField, Insert(BusRangeField, w, u), v)
  {
    if u < 2 && v < 8 { FieldBits.BusRangeModeCommute(w, u, v); }
  }

  lemma CommutePgaBusAdc(w: Word, u: Word, v: Word)
    ensures u < PgaField.Limit() && v < BusAdcField.Limit() ==>
      Insert(PgaField, Insert(BusAdcField, w, v), u) == Insert(BusAdcField, Insert(PgaField, w, u), v)
  {
    if u < 4 && v < 16 { FieldBits.PgaBusAdcCommute(w, u, v); }
  }

  lemma CommutePgaShuntAdc(w: Word, u: Word, v: Word)
    ensures u < PgaField.Limit() && v < ShuntAdcField.Limit() ==>
      Insert(PgaField, Insert(ShuntAdcField, w, v), u) == Insert(ShuntAdcField, Insert(PgaField, w, u), v)
  {
    if u < 4 && v < 16 { FieldBits.PgaShuntAdcCommute(w, u, v); }
  }

  lemma CommutePgaMode(w: Word, u: Word, v: Word)
    ensures u < PgaField.Limit() && v < ModeField.Limit() ==>
      Insert(PgaField, Insert(ModeField, w, v), u) == Insert(ModeField, Insert(PgaField, w, u), v)
  {
    if u < 4 && v < 8 { FieldBits.PgaModeCommute(w, u, v); }
  }

  lemma CommuteBusAdcShuntAdc(w: Word, u: Word, v: Word)
    ensures u < BusAdcField.Limit() && v < ShuntAdcField.Limit() ==>
      Insert(BusAdcField, Insert(ShuntAdcField, w, v), u) == Insert(ShuntAdcField, Insert(BusAdcField, w, u), v)
  {
    if u < 16 && v < 16 { FieldBits.BusAdcShuntAdcCommute(w, u, v); }
  }

  lemma CommuteBusAdcMode(w: Word, u: Word, v: Word)
    ensures u < BusAdcField.Limit() && v < ModeField.Limit() ==>
      Insert(BusAdcField, Insert(ModeField, w, v), u) == Insert(ModeField, Insert(BusAdcField, w, u), v)
  {
    if u < 16 && v < 8 { FieldBits.BusAdcModeCommute(w, u, v); }
  }

  lemma CommuteShuntAdcMode(w: Word, u: Word, v: Word)
    ensures u < ShuntAdcField.Limit() && v < ModeField.Limit() ==>
      Insert(ShuntAdcField, Insert(ModeField, w, v), u) == Insert(ModeField, Insert(ShuntAdcField, w, u), v)
  {
    if u < 16 && v < 8 { FieldBits.ShuntAdcModeCommute(w, u, v); }
  }

  lemma CommutesWithBusRange(f: Field, g: Field, w: Word, u: Word, v: Word)
    ensures f == BusRangeField && f != g && u < f.Limit() && v < g.Limit() ==>
      Insert(f, Insert(g, w, v), u) == Insert(g, Insert(f, w, u), v)
  {
    CommuteBusRangePga(w, u, v);
    CommuteBusRangeBusAdc(w, u, v);
    CommuteBusRangeShuntAdc(w, u, v);
    CommuteBusRangeMode(w, u, v);
  }

  lemma CommutesWithPga(f: Field, g: Field, w: Word, u: Word, v: Word)
    ensures f == PgaField && f != g && u < f.Limit() && v < g.Limit() ==>
      Insert(f, Insert(g, w, v), u) == Insert(g, Insert(f, w, u), v)
  {
    CommuteBusRangePga(w, v, u);
    CommutePgaBusAdc(w, u, v);
    CommutePgaShuntAdc(w, u, v);
    CommutePgaMode(w, u, v);
  }

  lemma CommutesWithBusAdc(f: Field, g: Field, w: Word, u: Word, v: Word)
    ensures f == BusAdcField && f != g && u < f.Limit() && v < g.Limit() ==>
      Insert(f, Insert(g, w, v), u) == Insert(g, Insert(f, w, u), v)
  {
    CommuteBusRangeBusAdc(w, v, u);
    CommutePgaBusAdc(w, v, u);
    CommuteBusAdcShuntAdc(w, u, v);
    CommuteBusAdcMode(w, u, v);
  }

  lemma CommutesWithShuntAdc(f: Field, g: Field, w: Word, u: Word, v: Word)
    ensures f == ShuntAdcField && f != g && u < f.Limit() && v < g.Limit() ==>
      Insert(f, Insert(g, w, v), u) == Insert(g, Insert(f, w, u), v)
  {
    CommuteBusRangeShuntAdc(w, v, u);
    CommutePgaShuntAdc(w, v, u);
    CommuteBusAdcShuntAdc(w, v, u);
    CommuteShuntAdcMode(w, u, v);
  }

  lemma CommutesWithMode(f: Field, g: Field, w: Word, u: Word, v: Word)
    ensures f == ModeField && f != g && u < f.Limit() && v < g.Limit() ==>
      Insert(f, Insert(g, w, v), u) == Insert(g, Insert(f, w, u), v)
  {
    CommuteBusRangeMode(w, v, u);
    CommutePgaMode(w, v, u);
    CommuteBusAdcMode(w, v, u);
    CommuteShuntAdcMode(w, v, u);
  }

  /** The settings a configuration word selects, one per field. */
  datatype Settings = Settings(
    range: BusRange, gain: PgaGain,
    busAdc: (AdcBits, AdcSample), shuntAdc: (AdcBits, AdcSample),
    mode: Mode)

  /** The guard of every ADC setter: a reduced resolution cannot average more than one sample. */
  predicate AdcRejects(bits: AdcBits, sample: AdcSample)
  {
    bits.Code() < Bits12.Code() && sample.Code() > Samples1.Code()
  }

  /**
   * The C++ ADC field value (setBADC, setSADC): the resolution code when it is
   * reduced, otherwise the averaging code with the marker bit 3 set.
   */
  function AdcField(bits: AdcBits, sample: AdcSample): (v: Word)
    ensures v < 16
    ensures v & 0x08 != 0 <==> bits == Bits12
  {
    if bits.Code() < Bits12.Code() then bits.Code() else 0x08 | sample.Code()
  }

  /**
   * The Python ADC field value (set_bus_ADC, set_shunt_ADC): as the C++ one,
   * but the 12-bit marker is 0x80, which lies outside the 4-bit field.
   */
  function PyAdcField(bits: AdcBits, sample: AdcSample): (v: Word)
    ensures bits == Bits12 ==> v >= 0x80 && v & 0x7F == sample.Code()
    ensures bits != Bits12 ==> v == AdcField(bits, sample)
  {
    if bits.Code() < Bits12.Code() then bits.Code() else 0x80 | sample.Code()
  }

  /** The resolution and averaging a 4-bit ADC field selects: bit 3 chooses averaging at 12 bits. */
  function AdcSetting(v: Word): (s: (AdcBits, AdcSample))
    ensures v & 0x08 == 0 ==> s.1 == Samples1
    ensures v & 0x08 != 0 ==> s.0 == Bits12
  {
    if v & 0x08 == 0 then (AdcBitsOf(v & 0x03), Samples1) else (Bits12, AdcSampleOf(v & 0x07))
  }

  /** Decoding the C++ ADC field gives back every setting the guard accepts. */
  lemma AdcRoundTrip(bits: AdcBits, sample: AdcSample)
    requires !AdcRejects(bits, sample)
    ensures AdcSetting(AdcField(bits, sample)) == (bits, sample)
  {
  }

  /**
   * The guard rejects exactly the settings no 4-bit field value selects:
   * a rejected setting is never decoded, and an accepted one is decoded from
   * the value the setter writes.
   */
  lemma AdcRejectsExactly(bits: AdcBits, sample: AdcSample)
    ensures AdcRejects(bits, sample) <==> forall v: Word :: v < 16 ==> AdcSetting(v) != (bits, sample)
  {
    if !AdcRejects(bits, sample) {
      AdcRoundTrip(bits, sample);
      assert AdcSetting(AdcField(bits, sample)) == (bits, sample);
    }
  }

  /** The settings a configuration word selects. */
  function SettingsOf(w: Word): Settings
  {
    Settings(
      BusRangeOf(BusRangeField.Get(w)), PgaGainOf(PgaField.Get(w)),
      AdcSetting(BusAdcField.Get(w)), AdcSetting(ShuntAdcField.Get(w)),
      ModeOf(ModeField.Get(w)))
  }

  /**
   * The Python shunt ADC setter at 12 bits: the marker lands on bit 10, the
   * top bit of the bus ADC field, and the shunt field receives the bare
   * averaging code, which the chip reads as a resolution with one sample.
   */
  lemma PyShuntAdcMarkerHitsBusAdc(w: Word, sample: AdcSample)
    ensures var r := Insert(ShuntAdcField, w, PyAdcField(Bits12, sample));
      && ShuntAdcField.Get(r) == sample.Code()
      && BusAdcField.Get(r) == BusAdcField.Get(w) | 0x08
      && AdcSetting(ShuntAdcField.Get(r)) == (AdcBitsOf(sample.Code() & 0x03), Samples1)
      && r & !(ShuntAdcField.Mask() | 0x0400) == w & !(ShuntAdcField.Mask() | 0x0400)
  {
  }

  /**
   * The Python bus ADC setter at 12 bits: the marker lands on bit 14, outside
   * every field, and the bus field receives the bare averaging code.
   */
  lemma PyBusAdcMarkerHitsBit14(w: Word, sample: AdcSample)
    ensures var r := Insert(BusAdcField, w, PyAdcField(Bits12, sample));
      && r & 0x4000 != 0
      && BusAdcField.Get(r) == sample.Code()
      && r & !(BusAdcField.Mask() | 0x4000) == w & !(BusAdcField.Mask() | 0x4000)
  {
  }

  /** From an all-zero word, Python's 12-bit/8-sample shunt setting writes 0x0418 where C++ writes 0x0058. */
  lemma PyShuntAdcCounterexample()
    ensures Insert(ShuntAdcField, 0, PyAdcField(Bits12, Samples8)) == 0x0418
    ensures Insert(ShuntAdcField, 0, AdcField(Bits12, Samples8)) == 0x0058
    ensures AdcSetting(ShuntAdcField.Get(0x0058)) == (Bits12, Samples8)
  {
  }
  /**
   * Because the shunt marker lands in the bus ADC field, the Python ADC
   * setters at 12 bits do not commute: from an all-zero word, shunt then bus
   * gives 0x4198 and bus then shunt gives 0x4598.
   */
  lemma PyAdcOrderMatters()
    ensures Insert(BusAdcField, Insert(ShuntAdcField, 0, PyAdcField(Bits12, Samples8)), PyAdcField(Bits12, Samples8)) == 0x4198
    ensures Insert(ShuntAdcField, Insert(BusAdcField, 0, PyAdcField(Bits12, Samples8)), PyAdcField(Bits12, Samples8)) == 0x4598
  {
  }

  // ---------------------------------------------------------------------
  // Setter calls

  /** One call of a configuration setter, with its enumerated arguments. */
  datatype Setter =
    | SetRange(range: BusRange)
    | SetGain(gain: PgaGain)
    | SetBusAdc(busBits: AdcBits, busSample: AdcSample)
    | SetShuntAdc(shuntBits: AdcBits, shuntSample: AdcSample)
    | SetOpMode(mode: Mode)
  {
    /** The field the call targets. */
    function Target(): Field
    {
      match this
      case SetRange(_) => BusRangeField
      case SetGain(_) => PgaField
      case SetBusAdc(_, _) => BusAdcField
      case SetShuntAdc(_, _) => ShuntAdcField
      case SetOpMode(_) => ModeField
    }

    /** An ADC call whose setting the guard refuses; the other setters have no guard. */
    predicate Rejected()
    {
      match this
      case SetBusAdc(b, s) => AdcRejects(b, s)
      case SetShuntAdc(b, s) => AdcRejects(b, s)
      case _ => false
    }

    /** The value the C++ setter shifts into its field. */
    function CppArg(): (v: Word)
      ensures v < Target().Limit()
    {
      match this
      case SetRange(r) => r.Code()
      case SetGain(g) => g.Code()
      case SetBusAdc(b, s) => AdcField(b, s)
      case SetShuntAdc(b, s) => AdcField(b, s)
      case SetOpMode(m) => m.Code()
    }

    /** An ADC call at 12 bits: the one kind of call whose Python argument differs from the C++ one. */
    predicate AtFullResolution()
    {
      match this
      case SetBusAdc(b, _) => b == Bits12
      case SetShuntAdc(b, _) => b == Bits12
      case _ => false
    }

    /**
     * The value the Python setter shifts into its field: the same as C++
     * except at 12 bits, where the marker is bit 7 instead of bit 3. The
     * shifted value stays below 2^16 (at most 0x87 << 7), so no bit of it is
     * lost to the 16-bit word.
     */
    function PyArg(): (v: Word)
      ensures !AtFullResolution() ==> v == CppArg()
      ensures AtFullResolution() ==> v == (CppArg() & 0x07) | 0x80
      ensures v < 0x88
    {
      match this
      case SetRange(r) => r.Code()
      case SetGain(g) => g.Code()
      case SetBusAdc(b, s) => PyAdcField(b, s)
      case SetShuntAdc(b, s) => PyAdcField(b, s)
      case SetOpMode(m) => m.Code()
    }
  }

  /**
   * What a call of the C++ setter makes of the configuration word of a
   * present chip. Every argument fits its field, so bits 14 and 15 (the
   * reset bit) keep their values.
   */
  function CppStep(w: Word, s: Setter): (r: Word)
    ensures r & 0x8000 == w & 0x8000 && r & 0x4000 == w & 0x4000
  {
    if s.Rejected() then w else Insert(s.Target(), w, s.CppArg())
  }

  /**
   * What a call of the Python setter that does not raise makes of the
   * configuration word. No argument reaches bit 15, the reset bit; the
   * 12-bit marker of the bus ADC setter reaches bit 14.
   */
  function PyStep(w: Word, s: Setter): (r: Word)
    ensures r & 0x8000 == w & 0x8000
  {
    if s.Rejected() then w else Insert(s.Target(), w, s.PyArg())
  }

  /** Away from 12-bit ADC calls the two languages' steps are the same. */
  lemma StepsAgree(w: Word, s: Setter)
    requires !s.AtFullResolution()
    ensures PyStep(w, s) == CppStep(w, s)
  {
  }

  /** The settings begin is meant to establish. */
  const DefaultSettings: Settings :=
    Settings(Range32V, Gain8, (Bits12, Samples8), (Bits12, Samples8), ShuntBusContinuous)

  /** A C++ setter call the guard lets through inserts its argument into its field. */
  lemma CppStepIs(w: Word, s: Setter, f: Field, v: Word)
    requires !s.Rejected() && s.Target() == f && s.CppArg() == v
    ensures CppStep(w, s) == Insert(f, w, v)
  {
  }

  /** A Python setter call the guard lets through inserts its argument into its field. */
  lemma PyStepIs(w: Word, s: Setter, f: Field, v: Word)
    requires !s.Rejected() && s.Target() == f && s.PyArg() == v
    ensures PyStep(w, s) == Insert(f, w, v)
  {
  }

  /**
   * The configuration word after a sequence of C++ setter calls on a present
   * chip: bits 14 and 15 are never touched.
   */
  function CppSteps(w: Word, calls: seq<Setter>): (r: Word)
    ensures r & 0x8000 == w & 0x8000 && r & 0x4000 == w & 0x4000
    decreases |calls|
  {
    if |calls| == 0 then w else CppSteps(CppStep(w, calls[0]), calls[1..])
  }

  /**
   * The configuration word after a sequence of Python setter calls none of
   * which raises: the reset bit is never set.
   */
  function PySteps(w: Word, calls: seq<Setter>): (r: Word)
    ensures r & 0x8000 == w & 0x8000
    decreases |calls|
  {
    if |calls| == 0 then w else PySteps(PyStep(w, calls[0]), calls[1..])
  }

  /** The setter calls begin makes, in order. */
  const BeginCalls: seq<Setter> := [
    SetRange(Range32V), SetGain(Gain8),
    SetBusAdc(Bits12, Samples8), SetShuntAdc(Bits12, Samples8),
    SetOpMode(ShuntBusContinuous)]

  lemma CppStepsCons(w: Word, s: Setter, rest: seq<Setter>, w': Word)
    requires CppStep(w, s) == w'
    ensures CppSteps(w, [s] + rest) == CppSteps(w', rest)
  {
    assert ([s] + rest)[1..] == rest;
  }

  lemma PyStepsCons(w: Word, s: Setter, rest: seq<Setter>, w': Word)
    requires PyStep(w, s) == w'
    ensures PySteps(w, [s] + rest) == PySteps(w', rest)
  {
    assert ([s] + rest)[1..] == rest;
  }

  /** A setter given an argument that fits keeps bits 14 and 15, which belong to no field. */
  lemma InsertKeepsTopBits(f: Field, w: Word, v: Word)
    ensures v < f.Limit() ==> Insert(f, w, v) & 0xC000 == w & 0xC000
  {
    var r := Insert(f, w, v);
    if v >= f.Limit() {
      return;
    }
    assert SameOutside(f, r, w);
    assert f.Mask() & 0xC000 == 0;
    FieldBits.TopBitsOutside(f.Mask(), r, w);
  }

  /**
   * The words the C++ begin writes, call by call: each setter sets its
   * field and the word keeps every bit no earlier call has set. The last
   * word sets bits 0-13 to 0x3DDF and keeps bits 14 and 15.
   */
  lemma CppBeginSteps(w: Word)
    ensures CppSteps(w, BeginCalls) == (w & 0xC000) | 0x3DDF
  {
    CppBeginRange(w);
    CppBeginGain(w);
    CppBeginBusAdc(w);
    CppBeginShuntAdc(w);
    CppBeginMode(w);
    assert BeginCalls == [SetRange(Range32V)] + ([SetGain(Gain8)] + ([SetBusAdc(Bits12, Samples8)]
      + ([SetShuntAdc(Bits12, Samples8)] + ([SetOpMode(ShuntBusContinuous)] + []))));
    CppStepsCons((w & 0xC007) | 0x3DD8, SetOpMode(ShuntBusContinuous), [], (w & 0xC000) | 0x3DDF);
    CppStepsCons((w & 0xC07F) | 0x3D80, SetShuntAdc(Bits12, Samples8), [SetOpMode(ShuntBusContinuous)], (w & 0xC007) | 0x3DD8);
    CppStepsCons((w & 0xC7FF) | 0x3800, SetBusAdc(Bits12, Samples8),
      [SetShuntAdc(Bits12, Samples8)] + [SetOpMode(ShuntBusContinuous)], (w & 0xC07F) | 0x3D80);
  }

  lemma CppBeginRange(w: Word)
    ensures CppStep(w, SetRange(Range32V)) == (w & 0xDFFF) | 0x2000
  {
    CppStepIs(w, SetRange(Range32V), BusRangeField, 1);
    FieldBits.CppBeginBits(w);
  }

  lemma CppBeginGain(w: Word)
    ensures CppStep((w & 0xDFFF) | 0x2000, SetGain(Gain8)) == (w & 0xC7FF) | 0x3800
  {
    CppStepIs((w & 0xDFFF) | 0x2000, SetGain(Gain8), PgaField, 3);
    FieldBits.CppBeginBits(w);
  }

  lemma CppBeginBusAdc(w: Word)
    ensures CppStep((w & 0xC7FF) | 0x3800, SetBusAdc(Bits12, Samples8)) == (w & 0xC07F) | 0x3D80
  {
    CppStepIs((w & 0xC7FF) | 0x3800, SetBusAdc(Bits12, Samples8), BusAdcField, 0x0B);
    FieldBits.CppBeginBits(w);
  }

  lemma CppBeginShuntAdc(w: Word)
    ensures CppStep((w & 0xC07F) | 0x3D80, SetShuntAdc(Bits12, Samples8)) == (w & 0xC007) | 0x3DD8
  {
    CppStepIs((w & 0xC07F) | 0x3D80, SetShuntAdc(Bits12, Samples8), ShuntAdcField, 0x0B);
    FieldBits.CppBeginBits(w);
  }

  lemma CppBeginMode(w: Word)
    ensures CppStep((w & 0xC007) | 0x3DD8, SetOpMode(ShuntBusContinuous)) == (w & 0xC000) | 0x3DDF
  {
    CppStepIs((w & 0xC007) | 0x3DD8, SetOpMode(ShuntBusContinuous), ModeField, 7);
    FieldBits.CppBeginBits(w);
  }

  /**
   * The words the Python begin writes, call by call. The bus ADC marker
   * lands on bit 14 and the shunt ADC marker on bit 10; the last word sets
   * bits 0-14 to 0x7D9F and keeps bit 15.
   */
  lemma PyBeginSteps(w: Word)
    ensures PySteps(w, BeginCalls) == (w & 0x8000) | 0x7D9F
  {
    PyBeginRange(w);
    PyBeginGain(w);
    PyBeginBusAdc(w);
    PyBeginShuntAdc(w);
    PyBeginMode(w);
    assert BeginCalls == [SetRange(Range32V)] + ([SetGain(Gain8)] + ([SetBusAdc(Bits12, Samples8)]
      + ([SetShuntAdc(Bits12, Samples8)] + ([SetOpMode(ShuntBusContinuous)] + []))));
    PyStepsCons((w & 0x8007) | 0x7D98, SetOpMode(ShuntBusContinuous), [], (w & 0x8000) | 0x7D9F);
    PyStepsCons((w & 0x807F) | 0x7980, SetShuntAdc(Bits12, Samples8), [SetOpMode(ShuntBusContinuous)], (w & 0x8007) | 0x7D98);
    PyStepsCons((w & 0xC7FF) | 0x3800, SetBusAdc(Bits12, Samples8),
      [SetShuntAdc(Bits12, Samples8)] + [SetOpMode(ShuntBusContinuous)], (w & 0x807F) | 0x7980);
  }

  lemma PyBeginRange(w: Word)
    ensures PyStep(w, SetRange(Range32V)) == (w & 0xDFFF) | 0x2000
  {
    PyStepIs(w, SetRange(Range32V), BusRangeField, 1);
    FieldBits.PyBeginBits(w);
  }

  lemma PyBeginGain(w: Word)
    ensures PyStep((w & 0xDFFF) | 0x2000, SetGain(Gain8)) == (w & 0xC7FF) | 0x3800
  {
    PyStepIs((w & 0xDFFF) | 0x2000, SetGain(Gain8), PgaField, 3);
    FieldBits.PyBeginBits(w);
  }

  lemma PyBeginBusAdc(w: Word)
    ensures PyStep((w & 0xC7FF) | 0x3800, SetBusAdc(Bits12, Samples8)) == (w & 0x807F) | 0x7980
  {
    PyStepIs((w & 0xC7FF) | 0x3800, SetBusAdc(Bits12, Samples8), BusAdcField, 0x83);
    FieldBits.PyBeginBits(w);
  }

  lemma PyBeginShuntAdc(w: Word)
    ensures PyStep((w & 0x807F) | 0x7980, SetShuntAdc(Bits12, Samples8)) == (w & 0x8007) | 0x7D98
  {
    PyStepIs((w & 0x807F) | 0x7980, SetShuntAdc(Bits12, Samples8), ShuntAdcField, 0x83);
    FieldBits.PyBeginBits(w);
  }

  lemma PyBeginMode(w: Word)
    ensures PyStep((w & 0x8007) | 0x7D98, SetOpMode(ShuntBusContinuous)) == (w & 0x8000) | 0x7D9F
  {
    PyStepIs((w & 0x8007) | 0x7D98, SetOpMode(ShuntBusContinuous), ModeField, 7);
    FieldBits.PyBeginBits(w);
  }

  /** The C++ begin's last word selects exactly the default settings. */
  lemma CppDefaultSettings(w: Word)
    ensures SettingsOf((w & 0xC000) | 0x3DDF) == DefaultSettings
  {
    FieldBits.CppDefaultFields(w);
  }

  /**
   * The Python begin's last word selects the defaults except for the shunt
   * ADC: the marker on bit 10 makes the bus field 0xB (12-bit, 8 samples)
   * after all, but leaves the shunt field 0x3, which is 12-bit with a single
   * sample.
   */
  lemma PyDefaultSettings(w: Word)
    ensures SettingsOf((w & 0x8000) | 0x7D9F) == DefaultSettings.(shuntAdc := (Bits12, Samples1))
  {
    FieldBits.PyDefaultFields(w);
  }
}

/**
 * Bit identities of the configuration setters, one field (or pair of fields)
 * at a time, on the literal masks and shifts.
 */
module FieldBits {
  import opened Bits

  /** BusRange: writing back the field's own value restores the word. */
  lemma BusRangeCurrent(w: Word)
    ensures ((w & !0x2000) | (((w & 0x2000) >> 13) << 13)) == w
  {
  }

  /** Pga: writing back the field's own value restores the word. */
  lemma PgaCurrent(w: Word)
    ensures ((w & !0x1800) | (((w & 0x1800) >> 11) << 11)) == w
  {
  }

  /** BusAdc: writing back the field's own value restores the word. */
  lemma BusAdcCurrent(w: Word)
    ensures ((w & !0x0780) | (((w & 0x0780) >> 7) << 7)) == w
  {
  }

  /** ShuntAdc: writing back the field's own value restores the word. */
  lemma ShuntAdcCurrent(w: Word)
    ensures ((w & !0x0078) | (((w & 0x0078) >> 3) << 3)) == w
  {
  }

  /** Mode: writing back the field's own value restores the word. */
  lemma ModeCurrent(w: Word)
    ensures ((w & !0x0007) | (w & 0x0007)) == w
  {
  }

  /** BusRange and Pga updates commute. */
  lemma BusRangePgaCommute(w: Word, u: Word, v: Word)
    requires u < 2 && v < 4
    ensures ((((w & !0x1800) | (v << 11)) & !0x2000) | (u << 13)) == ((((w & !0x2000) | (u << 13)) & !0x1800) | (v << 11))
  {
  }

  /** BusRange and BusAdc updates commute. */
  lemma BusRangeBusAdcCommute(w: Word, u: Word, v: Word)
    requires u < 2 && v < 16
    ensures ((((w & !0x0780) | (v << 7)) & !0x2000) | (u << 13)) == ((((w & !0x2000) | (u << 13)) & !0x0780) | (v << 7))
  {
  }

  /** BusRange and ShuntAdc updates commute. */
  lemma BusRangeShuntAdcCommute(w: Word, u: Word, v: Word)
    requires u < 2 && v < 16
    ensures ((((w & !0x0078) | (v << 3)) & !0x2000) | (u << 13)) == ((((w & !0x2000) | (u << 13)) & !0x0078) | (v << 3))
  {
  }

  /** BusRange and Mode updates commute. */
  lemma BusRangeModeCommute(w: Word, u: Word, v: Word)
    requires u < 2 && v < 8
    ensures ((((w & !0x0007) | v) & !0x2000) | (u << 13)) == ((((w & !0x2000) | (u << 13)) & !0x0007) | v)
  {
  }

  /** Pga and BusAdc updates commute. */
  lemma PgaBusAdcCommute(w: Word, u: Word, v: Word)
    requires u < 4 && v < 16
    ensures ((((w & !0x0780) | (v << 7)) & !0x1800) | (u << 11)) == ((((w & !0x1800) | (u << 11)) & !0x0780) | (v << 7))
  {
  }

  /** Pga and ShuntAdc updates commute. */
  lemma PgaShuntAdcCommute(w: Word, u: Word, v: Word)
    requires u < 4 && v < 16
    ensures ((((w & !0x0078) | (v << 3)) & !0x1800) | (u << 11)) == ((((w & !0x1800) | (u << 11)) & !0x0078) | (v << 3))
  {
  }

  /** Pga and Mode updates commute. */
  lemma PgaModeCommute(w: Word, u: Word, v: Word)
    requires u < 4 && v < 8
    ensures ((((w & !0x0007) | v) & !0x1800) | (u << 11)) == ((((w & !0x1800) | (u << 11)) & !0x0007) | v)
  {
  }

  /** BusAdc and ShuntAdc updates commute. */
  lemma BusAdcShuntAdcCommute(w: Word, u: Word, v: Word)
    requires u < 16 && v < 16
    ensures ((((w & !0x0078) | (v << 3)) & !0x0780) | (u << 7)) == ((((w & !0x0780) | (u << 7)) & !0x0078) | (v << 3))
  {
  }

  /** BusAdc and Mode updates commute. */
  lemma BusAdcModeCommute(w: Word, u: Word, v: Word)
    requires u < 16 && v < 8
    ensures ((((w & !0x0007) | v) & !0x0780) | (u << 7)) == ((((w & !0x0780) | (u << 7)) & !0x0007) | v)
  {
  }

  /** ShuntAdc and Mode updates commute. */
  lemma ShuntAdcModeCommute(w: Word, u: Word, v: Word)
    requires u < 16 && v < 8
    ensures ((((w & !0x0007) | v) & !0x0078) | (u << 3)) == ((((w & !0x0078) | (u << 3)) & !0x0007) | v)
  {
  }

  /** The five default C++ settings, one at a time, in begin's order. */
  lemma CppBeginBits(w: Word)
    ensures (w & !0x2000) | (1 << 13) == (w & 0xDFFF) | 0x2000
    ensures (((w & 0xDFFF) | 0x2000) & !0x1800) | (3 << 11) == (w & 0xC7FF) | 0x3800
    ensures (((w & 0xC7FF) | 0x3800) & !0x0780) | (0x0B << 7) == (w & 0xC07F) | 0x3D80
    ensures (((w & 0xC07F) | 0x3D80) & !0x0078) | (0x0B << 3) == (w & 0xC007) | 0x3DD8
    ensures (((w & 0xC007) | 0x3DD8) & !0x0007) | 7 == (w & 0xC000) | 0x3DDF
  {
  }

  /** The fields of the word the C++ begin leaves. */
  lemma CppDefaultFields(w: Word)
    ensures (((w & 0xC000) | 0x3DDF) & 0x2000) >> 13 == 1
    ensures (((w & 0xC000) | 0x3DDF) & 0x1800) >> 11 == 3
    ensures (((w & 0xC000) | 0x3DDF) & 0x0780) >> 7 == 0x0B
    ensures (((w & 0xC000) | 0x3DDF) & 0x0078) >> 3 == 0x0B
    ensures ((w & 0xC000) | 0x3DDF) & 0x0007 == 7
  {
  }

  /** Two words that agree outside a mask clear of bits 14 and 15 agree on those bits. */
  lemma TopBitsOutside(m: Word, a: Word, b: Word)
    requires m & 0xC000 == 0 && a & !m == b & !m
    ensures a & 0xC000 == b & 0xC000
  {
    assert a & 0xC000 == (a & !m) & 0xC000;
    assert b & 0xC000 == (b & !m) & 0xC000;
  }

  lemma PyBeginBits(w: Word)
    ensures (w & !0x2000) | (1 << 13) == (w & 0xDFFF) | 0x2000
    ensures (((w & 0xDFFF) | 0x2000) & !0x1800) | (3 << 11) == (w & 0xC7FF) | 0x3800
    ensures (((w & 0xC7FF) | 0x3800) & !0x0780) | (0x83 << 7) == (w & 0x807F) | 0x7980
    ensures (((w & 0x807F) | 0x7980) & !0x0078) | (0x83 << 3) == (w & 0x8007) | 0x7D98
    ensures (((w & 0x8007) | 0x7D98) & !0x0007) | 7 == (w & 0x8000) | 0x7D9F
  {
  }

  /** The fields of the word the Python begin leaves. */
  lemma PyDefaultFields(w: Word)
    ensures (((w & 0x8000) | 0x7D9F) & 0x2000) >> 13 == 1
    ensures (((w & 0x8000) | 0x7D9F) & 0x1800) >> 11 == 3
    ensures (((w & 0x8000) | 0x7D9F) & 0x0780) >> 7 == 0x0B
    ensures (((w & 0x8000) | 0x7D9F) & 0x0078) >> 3 == 0x03
    ensures ((w & 0x8000) | 0x7D9F) & 0x0007 == 7
  {
  }
}
