/**
 * The INA219's bus addresses, register map and the enumerations whose
 * ordinals the driver shifts into the configuration register. The C++ header
 * declares these as `#define`s and enums; the Python class declares the same
 * values as class constants.
 */
module Registers {
  import opened Bits
  import opened Wrappers

  /** The four I2C addresses the A0/A1 pins select. */
  const Addresses: seq<int> := [0x40, 0x41, 0x44, 0x45]

  /** The four addresses are distinct 7-bit I2C addresses. */
  lemma AddressesDistinct()
    ensures |Addresses| == 4
    ensures forall i :: 0 <= i < |Addresses| ==> 0 <= Addresses[i] < 0x80
    ensures forall i, j :: 0 <= i < j < |Addresses| ==> Addresses[i] != Addresses[j]
  {
  }

  /** The six registers of the chip. */
  datatype Register = Config | ShuntVoltage | BusVoltage | Power | Current | Calibration {

    /** The register pointer the driver sends before the data bytes. */
    function Number(): (n: Octet)
      ensures n <= 5
    {
      match this
      case Config => 0x00
      case ShuntVoltage => 0x01
      case BusVoltage => 0x02
      case Power => 0x03
      case Current => 0x04
      case Calibration => 0x05
    }
  }

  /** The register a pointer value names, if any. */
  function RegisterAt(n: int): (r: Option<Register>)
    ensures r.Some? <==> 0 <= n <= 5
    ensures r.Some? ==> r.value.Number() == n
  {
    if n == 0x00 then Some(Config)
    else if n == 0x01 then Some(ShuntVoltage)
    else if n == 0x02 then Some(BusVoltage)
    else if n == 0x03 then Some(Power)
    else if n == 0x04 then Some(Current)
    else if n == 0x05 then Some(Calibration)
    else None
  }

  /** Register numbers are pairwise distinct: each register is found again from its number. */
  lemma RegisterNumbersDistinct(r: Register)
    ensures RegisterAt(r.Number()) == Some(r)
  {
  }

  /** The configuration word the C++ reset writes (INA219_CONFIG_RESET): bit 15 alone. */
  const ConfigReset: Word := 0x8000

  /** The bus-voltage-range bit (INA219_CONFIG_BUSVOLTAGERANGE_MASK). */
  const BusVoltageRangeMask: Word := 0x2000

  /** The calibration value `begin` starts from. */
  const DefaultCalibration: Uint16 := 4096

  /** The C++ driver's lastOperateStatus. */
  datatype Status = Ok | InitError | WriteRegError | ReadRegError

  /** BRNG: bus voltage full-scale range. */
  datatype BusRange = Range16V | Range32V {
    function Code(): (c: Word)
      ensures c < 2
    {
      match this
      case Range16V => 0
      case Range32V => 1
    }
  }

  /** PGA: shunt voltage gain, full scale 40, 80, 160 or 320 mV. */
  datatype PgaGain = Gain1 | Gain2 | Gain4 | Gain8 {
    function Code(): (c: Word)
      ensures c < 4
    {
      match this
      case Gain1 => 0
      case Gain2 => 1
      case Gain4 => 2
      case Gain8 => 3
    }
  }

  /** ADC resolution: 9, 10, 11 or 12 bits. */
  datatype AdcBits = Bits9 | Bits10 | Bits11 | Bits12 {
    function Code(): (c: Word)
      ensures c < 4
      ensures c == 3 <==> this == Bits12
    {
      match this
      case Bits9 => 0
      case Bits10 => 1
      case Bits11 => 2
      case Bits12 => 3
    }
  }

  /** ADC averaging: 1, 2, 4, ..., 128 samples per conversion. */
  datatype AdcSample =
    | Samples1 | Samples2 | Samples4 | Samples8
    | Samples16 | Samples32 | Samples64 | Samples128
  {
    function Code(): (c: Word)
      ensures c < 8
      ensures c == 0 <==> this == Samples1
    {
      match this
      case Samples1 => 0
      case Samples2 => 1
      case Samples4 => 2
      case Samples8 => 3
      case Samples16 => 4
      case Samples32 => 5
      case Samples64 => 6
      case Samples128 => 7
    }
  }

  /** MODE: power-down, triggered or continuous conversion of shunt and/or bus. */
  datatype Mode =
    | PowerDown | ShuntTriggered | BusTriggered | ShuntBusTriggered
    | AdcOff | ShuntContinuous | BusContinuous | ShuntBusContinuous
  {
    function Code(): (c: Word)
      ensures c < 8
    {
      match this
      case PowerDown => 0
      case ShuntTriggered => 1
      case BusTriggered => 2
      case ShuntBusTriggered => 3
      case AdcOff => 4
      case ShuntContinuous => 5
      case BusContinuous => 6
      case ShuntBusContinuous => 7
    }
  }

  /** The range a BRNG code names. */
  function BusRangeOf(c: Word): (r: BusRange)
    requires c < 2
    ensures r.Code() == c
  {
    if c == 0 then Range16V else Range32V
  }

  /** The gain a PGA code names. */
  function PgaGainOf(c: Word): (g: PgaGain)
    requires c < 4
    ensures g.Code() == c
  {
    if c == 0 then Gain1 else if c == 1 then Gain2 else if c == 2 then Gain4 else Gain8
  }

  /** The resolution an ADC code names. */
  function AdcBitsOf(c: Word): (b: AdcBits)
    requires c < 4
    ensures b.Code() == c
  {
    if c == 0 then Bits9 else if c == 1 then Bits10 else if c == 2 then Bits11 else Bits12
  }

  /** The averaging count an ADC code names. */
  function AdcSampleOf(c: Word): (s: AdcSample)
    requires c < 8
    ensures s.Code() == c
  {
    if c == 0 then Samples1 else if c == 1 then Samples2 else if c == 2 then Samples4
    else if c == 3 then Samples8 else if c == 4 then Samples16 else if c == 5 then Samples32
    else if c == 6 then Samples64 else Samples128
  }

  /** The mode a MODE code names. */
  function ModeOf(c: Word): (m: Mode)
    requires c < 8
    ensures m.Code() == c
  {
    if c == 0 then PowerDown else if c == 1 then ShuntTriggered else if c == 2 then BusTriggered
    else if c == 3 then ShuntBusTriggered else if c == 4 then AdcOff else if c == 5 then ShuntContinuous
    else if c == 6 then BusContinuous else ShuntBusContinuous
  }

  /** Enumeration codes are injective: each value is found again from its code. */
  lemma CodesInjective(r: BusRange, g: PgaGain, b: AdcBits, s: AdcSample, m: Mode)
    ensures BusRangeOf(r.Code()) == r
    ensures PgaGainOf(g.Code()) == g
    ensures AdcBitsOf(b.Code()) == b
    ensures AdcSampleOf(s.Code()) == s
    ensures ModeOf(m.Code()) == m
  {
  }
}
