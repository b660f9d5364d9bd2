# INA219 driver model

A Dafny model of the register logic of DFRobot's INA219 current/power monitor
driver. The driver exists in three copies: the C++ class `DFRobot_INA219`, and
two Python classes `INA219`, one under `Python/RespberryPi` and one under
`Python/RaspberryPi`. All three copies do the same register work:

- configure the chip by read-modify-writes of the 16-bit configuration
  register (bus range, PGA gain, bus and shunt ADC resolution/averaging,
  operating mode);
- read the measurement registers as signed 16-bit values and turn them into
  mV, mA and mW;
- keep a calibration value, rescale it from a pair of current readings and
  write it to the calibration register;
- probe the chip and apply the default configuration in `begin`.

The model is functional. A driver call is a function from the driver object
to its result and the object after it. The object holds:

- the chip, which either answers at its address or does not, and holds six
  registers; bit 15 of its configuration is RST, which a write sets to reset
  every register to its power-on value and which then clears itself;
- the calibration value;
- the C++ status, for the C++ class;
- a log of every bus transaction started.

Python exceptions are results: `Returned(value, after)` or
`Raised(error, after)`.

Modules:

| module | file | what it holds |
|---|---|---|
| `Wrappers` | wrappers.dfy | `Option` (Python's `cal_value` before `begin`) |
| `Bits` | bits.dfy | bytes, 16-bit words, two's complement, C++ `int16_t` conversion |
| `Registers` | registers.dfy | addresses, register numbers, the enumerations of the header |
| `Config` | config.dfy | the configuration fields, the read-modify-write step, ADC encodings, setter calls, `begin`'s words |
| `FieldBits` | config.dfy | bit identities on the literal masks the `Config` proofs rest on |
| `Transfer` | transfer.dfy | byte join/sign extension on read, byte split on write, the smbus byte truncation |
| `Device` | device.dfy | the chip, its registers, bus transactions |
| `Measure` | measure.dfy | the four decoders, and the decoders the register formats call for |
| `Calibration` | calibration.dfy | truncation, `& 0xFFFE`, the linear calibration of both languages |
| `PyInt` | pyint.dfy | Python's unbounded ints under the setters' clear-then-set operators |
| `CppDriver` | cpp_driver.dfy | the C++ class |
| `PyDriver` | python_driver.dfy | both Python classes, told apart by a `Copy` parameter |
| `Copies` | copies.dfy | the C++ and Python classes compared on the same chip |

The configuration register is a `bv16`. Every setter call goes through one
step, `Insert(f, w, v) = (w & !mask) | (v << shift)`. The Python setters work
on the unbounded int `read_ina_reg` returns, which is negative for a word with
bit 15 set. Since RST reads back as 0, the configuration never gives one; the
setter model does not rely on that. `PyInt` keeps such an int as its low word
plus the multiple of 2^16 above it, and the model shows that the bits above
15 never reach the bus.

## Model

| member | source | states |
|---|---|---|
| Bits.Split | Python/RespberryPi/DFRobot_INA219.py:111 | the two items `[v >> 8, v & 0xff]` recombine as `256 * high + low` to `v` |
| Bits.Join | DFRobot_INA219.cpp:169 | joining two bytes big-endian and splitting the result gives the same two bytes back |
| Bits.WordBytes | DFRobot_INA219.cpp:174 | the bytes a configuration word is sent as join back to the word's unsigned value |
| Bits.Int16Of | DFRobot_INA219.h:109 | the conversion to `int16_t` yields a value congruent to its argument modulo 2^16 |
| Bits.Signed16 | Python/RespberryPi/DFRobot_INA219.py:265-268 | the signed reading is congruent to the raw value modulo 2^16 and negative exactly when the raw value is at least 0x8000 |
| Bits.Signed16IsInt16Of | DFRobot_INA219.cpp:164-170 | Python's explicit `- 0x10000` equals C++'s conversion of the joined int to `int16_t` |
| Bits.Unsigned16 | DFRobot_INA219.h:109 | the pattern a signed value is stored as reads back as that value |
| Bits.SignedRoundTrip | Python/RaspberryPi/DFRobot_INA219.py:153-156 | reading a 16-bit value as signed and storing it again gives the value back |
| Registers.AddressesDistinct | DFRobot_INA219.h:7-10 | the four addresses are distinct and fit in 7 bits |
| Registers.RegisterAt | DFRobot_INA219.h:14-27 | exactly the pointers 0 to 5 name a register, and the register named has that pointer |
| Registers.RegisterNumbersDistinct | DFRobot_INA219.h:14-27 | every register is found again from its pointer, so the six pointers are distinct |
| Registers.CodesInjective | DFRobot_INA219.h:36-75 | every enumerator is found again from its ordinal, so no two enumerators of one enumeration share a value |
| Config.InsertKeepsUncovered | Python/RespberryPi/DFRobot_INA219.py:205-208 | whatever the argument, a setter keeps every bit that neither its mask nor its shifted argument covers |
| Config.Insert | DFRobot_INA219.cpp:68-72 | for an argument that fits, the setter leaves its field holding the argument and changes no bit outside the field |
| Config.InsertIdempotent | Python/RespberryPi/DFRobot_INA219.py:256-260 | applying the same setter twice leaves the word as applying it once, for any argument, including the Python 12-bit ADC values |
| Config.InsertCurrent | Python/RaspberryPi/DFRobot_INA219.py:143-148 | writing a field's own value back leaves the word unchanged |
| Config.InsertCommutes | DFRobot_INA219.cpp:66-82 | setters on different fields commute when their arguments fit |
| Config.MasksCover | DFRobot_INA219.cpp:66-129 | the five masks cover bits 0-13 and leave bits 14 and 15 to no field |
| Config.HeaderConstants | DFRobot_INA219.h:15-16 | `INA219_CONFIG_BUSVOLTAGERANGE_MASK` is the bit `setBRNG` clears; `INA219_CONFIG_RESET` is bit 15 alone and sets no field |
| Config.AdcField | DFRobot_INA219.cpp:93-96 | the C++ ADC value fits the 4-bit field and has bit 3 set exactly at 12 bits |
| Config.PyAdcField | Python/RespberryPi/DFRobot_INA219.py:201-204 | the Python ADC value equals the C++ one below 12 bits; at 12 bits it carries the averaging code under a marker at bit 7 |
| Config.AdcSetting | DFRobot_INA219.cpp:83-86 | a field with bit 3 clear selects one sample; one with bit 3 set selects 12 bits |
| Config.AdcRoundTrip | DFRobot_INA219.cpp:91-96 | decoding the C++ field value gives back every resolution/averaging pair the guard accepts |
| Config.AdcRejectsExactly | DFRobot_INA219.cpp:91-92 | the guard rejects exactly the settings that no 4-bit ADC field value selects |
| Config.PyShuntAdcMarkerHitsBusAdc | Python/RespberryPi/DFRobot_INA219.py:236-240 | the Python shunt setter at 12 bits sets bit 10, which is the top bit of the bus ADC field; the chip then reads the shunt field as one sample |
| Config.PyBusAdcMarkerHitsBit14 | Python/RespberryPi/DFRobot_INA219.py:204-208 | the Python bus setter at 12 bits sets bit 14 and leaves the bare averaging code in the bus field |
| Config.PyShuntAdcCounterexample | Python/RespberryPi/DFRobot_INA219.py:236 | from 0, Python's 12-bit/8-sample shunt setting writes 0x0418 where C++ writes 0x0058 |
| Config.PyAdcOrderMatters | Python/RespberryPi/DFRobot_INA219.py:86-87 | the two Python 12-bit ADC setters do not commute: 0x4198 one way, 0x4598 the other |
| Config.StepsAgree | Python/RaspberryPi/DFRobot_INA219.py:120-123 | apart from 12-bit ADC calls, a Python setter call changes the word as the C++ call does |
| Config.InsertKeepsTopBits | DFRobot_INA219.cpp:66-129 | a setter given an argument that fits its field keeps bits 14 and 15 |
| Config.CppStep | DFRobot_INA219.cpp:66-129 | one C++ setter call keeps bit 15, the reset bit, and bit 14 |
| Config.PyStep | Python/RespberryPi/DFRobot_INA219.py:150-260 | one Python setter call keeps bit 15, the reset bit |
| Config.CppSteps | DFRobot_INA219.cpp:24-28 | no sequence of C++ setter calls changes bits 14 and 15 |
| Config.PySteps | Python/RespberryPi/DFRobot_INA219.py:84-88 | no sequence of Python setter calls sets the reset bit |
| Config.CppBeginSteps | DFRobot_INA219.cpp:24-28 | begin's five C++ calls set bits 0-13 to 0x3DDF and keep bits 14-15 |
| Config.PyBeginSteps | Python/RespberryPi/DFRobot_INA219.py:84-88 | begin's five Python calls set bits 0-14 to 0x7D9F and keep bit 15 |
| Config.CppDefaultSettings | DFRobot_INA219.cpp:24-28 | the C++ begin word selects 32 V, gain /8, 12 bits with 8 samples for both ADCs, and continuous shunt-and-bus mode |
| Config.PyDefaultSettings | Python/RespberryPi/DFRobot_INA219.py:84-88 | the Python begin word selects the same settings except a shunt ADC at 12 bits with one sample |
| Transfer.PyReadInaReg | Python/RespberryPi/DFRobot_INA219.py:262-268 | the reading is the joined bytes in two's complement; it is negative exactly when bit 7 of the first byte is set |
| Transfer.CppReadInaReg | DFRobot_INA219.cpp:164-170 | the `int16_t` result is the joined bytes read in two's complement |
| Transfer.ReadCopiesAgree | Python/RaspberryPi/DFRobot_INA219.py:150-156 | all three copies read the same bytes as the same signed value |
| Transfer.ReadExamples | Python/RespberryPi/DFRobot_INA219.py:265-268 | 0x0000, 0x7FFF, 0x8000 and 0xFFFF read as 0, 32767, -32768 and -1 |
| Transfer.ReadInvertsStore | Python/RaspberryPi/DFRobot_INA219.py:150-156 | a signed value stored in two's complement reads back as itself |
| Transfer.PyWriteItems | Python/RespberryPi/DFRobot_INA219.py:110-111 | the two list items recombine to the value for any int; the second item is a byte |
| Transfer.Transmit | Python/RespberryPi/DFRobot_INA219.py:111 | each byte sent agrees with its list item modulo 256 |
| Transfer.PyWriteRoundTrip | Python/RespberryPi/DFRobot_INA219.py:110-111 | a value in [0, 65535] is sent as its big-endian bytes, which join back to it |
| Transfer.PyWriteSigned | Python/RaspberryPi/DFRobot_INA219.py:83-84 | a negative int16 value reaches the chip as the bytes of its two's-complement pattern |
| Transfer.CppWriteBytes | DFRobot_INA219.cpp:172-176 | the buffer `{value >> 8, value & 0xff}` joins back to the value |
| Transfer.WordOfSigned | DFRobot_INA219.cpp:68-72 | the pattern of a word's signed reading is the word itself, so the `int16_t` detour loses nothing |
| Transfer.WordOfZero | DFRobot_INA219.cpp:154-155 | a failed read hands the setter the all-zero word |
| Device.Bytes | DFRobot_INA219.cpp:156-159 | the bytes a present chip returns join to the register's contents |
| Device.PowerOn | DFRobot_INA219.h:15 | after RST the configuration reads 0x399F and the power, current and calibration registers read 0; presence and the two voltage registers are kept |
| Device.Store | DFRobot_INA219.cpp:133 | a configuration word with RST clear is held as written and nothing else changes; one with RST set leaves the configuration at 0x399F and calibration 0; presence and the voltage registers are never touched |
| Device.Receive | DFRobot_INA219.cpp:136-146 | a write changes only the configuration or calibration register it addresses, except that a configuration word with RST (bit 15) set brings the configuration to 0x399F and the calibration, power and current registers to 0 |
| Device.ReceiveThenRead | DFRobot_INA219.cpp:172-176 | a written calibration value, or configuration word with RST clear, is what a later read returns; a word with RST set resets the chip |
| Measure.BusMilliVolts | DFRobot_INA219.cpp:48 | `reading >> 1` is the floor of half the reading and lies in [-16384, 16383] |
| Measure.BusDecodeExact | Python/RespberryPi/DFRobot_INA219.py:122 | the shift-by-one decoder reports a register's voltage exactly when the voltage is below 16.384 V and the conversion-ready bit is clear |
| Measure.BusMilliVoltsOfRegister | Python/RespberryPi/DFRobot_INA219.py:122 | the corrected decoder yields a multiple of 4 mV in [0, 32764], ignoring the three status bits |
| Measure.BusCorrectedExact | Python/RespberryPi/DFRobot_INA219.py:122 | the corrected decoder reports every register's voltage, whatever its status bits |
| Measure.BusDecodeCounterexamples | Python/RespberryPi/DFRobot_INA219.py:122 | 20 V reads as -12768 mV, and 4 mV with the ready bit set reads as 5 mV |
| Measure.BusExample | Python/RespberryPi/DFRobot_INA219.py:122 | a reading of 8 is 4 mV |
| Measure.PyShuntMilliVolts | Python/RespberryPi/DFRobot_INA219.py:130 | the Python shunt value is 100 times the C++ one, that is the raw count of 10 uV steps itself |
| Measure.CppShuntMilliVolts | DFRobot_INA219.cpp:53 | the C++ shunt value times 100 is the raw count, so it is in mV |
| Measure.ShuntDecode | DFRobot_INA219.cpp:51-54 | a stored count decodes to count / 100 mV in C++ and to 100 times that in Python |
| Measure.ShuntCounterexample | Python/RespberryPi/DFRobot_INA219.py:130 | 1 mV across the shunt reads as 100.0 in Python and 1.0 in C++ |
| Measure.CurrentMilliAmps | DFRobot_INA219.cpp:58 | the current in mA lies within 32768 mA either way and is negative exactly when the reading is, that is for current from IN- to IN+ |
| Measure.ZeroReadings | DFRobot_INA219.cpp:166-169 | the zero a failed C++ read leaves in its buffer decodes to 0 in every unit |
| Measure.CurrentRoundTrip | Python/RespberryPi/DFRobot_INA219.py:140 | a signed current stored in two's complement decodes to itself, and it is negative exactly when bit 15 is set |
| Measure.PowerMilliWatts | DFRobot_INA219.cpp:63 | power is a multiple of 20 mW and negative exactly when the reading is |
| Measure.PowerDecodeExact | Python/RespberryPi/DFRobot_INA219.py:148 | reading the unsigned power register as signed gives the right power exactly when the count is below 0x8000 |
| Measure.PowerMilliWattsOfRegister | Python/RespberryPi/DFRobot_INA219.py:148 | the unsigned decoder is non-negative, a multiple of 20, and agrees with the signed one below 0x8000 |
| Measure.PowerExamples | Python/RespberryPi/DFRobot_INA219.py:148 | 100 is 2000 mW; the register 0x8000 reads as -655360 mW against 655360 unsigned |
| Calibration.Trunc | Python/RespberryPi/DFRobot_INA219.py:100 | `int()` lands within 1 of its argument, toward zero |
| Calibration.MaskFFFE | Python/RespberryPi/DFRobot_INA219.py:100 | `n & 0xFFFE` is even, in [0, 0xFFFE], and agrees with `n` modulo 2^16 up to the low bit |
| Calibration.MaskFFFEInRange | DFRobot_INA219.cpp:42 | on a 16-bit value the mask only clears the low bit, and applying it twice changes nothing more |
| Calibration.PyLinearCal | Python/RespberryPi/DFRobot_INA219.py:100 | the new calibration value is even and at most 0xFFFE |
| Calibration.CppLinearCal | DFRobot_INA219.cpp:42 | the new value is even and at most 0xFFFE; for a non-negative scaled value it is the scaled value truncated and its low bit cleared, so at most the scaled value and less than 2 below it; a scaled value in (-1, 0) gives 0 |
| Calibration.CopiesAgree | Python/RaspberryPi/DFRobot_INA219.py:77 | where the C++ conversion is defined, Python and C++ compute the same value |
| Calibration.EqualReadings | DFRobot_INA219.cpp:40-44 | equal readings keep an even value, clear the low bit of an odd one, and stay in the C++ defined range |
| Calibration.CalibrationExamples | Python/RespberryPi/DFRobot_INA219.py:98-100 | from 4096: equal readings keep it, a 2:1 ratio doubles it, a 16:1 ratio wraps to 0, and a negative ratio gives 0xF000 |
| CppDriver.ReadInaReg | DFRobot_INA219.cpp:148-170 | a read returns the register's signed value and leaves status ok, or returns 0 and leaves ReadRegError when the chip does not answer |
| CppDriver.WriteInaReg | DFRobot_INA219.cpp:172-176 | a write sends the value's big-endian bytes, a present chip stores them, and the status ends ok |
| CppDriver.SetField | DFRobot_INA219.cpp:66-73 | a setter changes only the configuration register: on a present chip its field holds the argument and every other bit is kept; calValue is kept and the status ends ok |
| CppDriver.ConfigReading | DFRobot_INA219.cpp:68-69 | the `int16_t` a setter reads has the register's word as its pattern, or 0 after a failed read |
| CppDriver.SetBRNG | DFRobot_INA219.cpp:66-73 | on a present chip bit 13 holds the range's code and no other bit changes; only the configuration register changes, the status ends ok |
| CppDriver.SetPGA | DFRobot_INA219.cpp:75-82 | on a present chip bits 11-12 hold the gain's code and no other bit changes; only the configuration register changes |
| CppDriver.SetBADC | DFRobot_INA219.cpp:87-101 | a setting the guard rejects changes nothing; an accepted one reads back from bits 7-10 as the requested resolution and averaging, and no other bit changes |
| CppDriver.SetSADC | DFRobot_INA219.cpp:106-120 | a setting the guard rejects changes nothing; an accepted one reads back from bits 3-6 as the requested resolution and averaging, and no other bit changes |
| CppDriver.SetMode | DFRobot_INA219.cpp:122-129 | on a present chip bits 0-2 hold the mode's code and no other bit changes; only the configuration register changes |
| CppDriver.Reset | DFRobot_INA219.cpp:131-134 | reset writes exactly 0x80, 0x00 to register 0 and a present chip returns to its power-on state; calValue is kept and the status ends ok |
| CppDriver.ResetSettings | DFRobot_INA219.cpp:131-134 | the power-on configuration a reset leaves selects the default settings with one sample on both ADCs |
| CppDriver.Apply | DFRobot_INA219.cpp:66-129 | any setter call changes only the configuration register and keeps calValue |
| CppDriver.ApplyAll | DFRobot_INA219.cpp:24-28 | a sequence of setter calls changes only the configuration register and keeps calValue |
| CppDriver.Begin | DFRobot_INA219.cpp:18-37 | begin returns true exactly when the chip answers, and then leaves status ok and calValue 4096 in the driver and the chip; otherwise InitError after the probe alone |
| CppDriver.Configure | DFRobot_INA219.cpp:24-31 | after the setters the status is ok and calValue 4096; only the configuration and calibration registers change, and a present chip holds 4096 |
| CppDriver.GetBusVoltage | DFRobot_INA219.cpp:46-49 | the bus getter decodes the signed bus register, or returns 0 after a failed read; the read is the only transaction |
| CppDriver.GetShuntVoltage | DFRobot_INA219.cpp:51-54 | the shunt getter decodes the signed shunt register, or returns 0 after a failed read |
| CppDriver.GetCurrent | DFRobot_INA219.cpp:56-59 | the current getter decodes the signed current register, or returns 0 after a failed read |
| CppDriver.GetPower | DFRobot_INA219.cpp:61-64 | the power getter decodes the signed power register, or returns 0 after a failed read |
| CppDriver.LinearCalibrate | DFRobot_INA219.cpp:40-44 | calValue becomes even and at most 0xFFFE, is written high byte first, and a present chip holds it |
| CppDriver.SetFieldEffect | DFRobot_INA219.cpp:66-73 | a setter reads, writes back the word read with its field replaced, which never sets RST, and leaves status ok |
| CppDriver.ApplyEffect | DFRobot_INA219.cpp:87-101 | a setter call the guard refuses changes nothing; any other is one read-modify-write of its step |
| CppDriver.ApplyIdempotent | DFRobot_INA219.cpp:122-129 | calling any setter twice leaves the chip and status as calling it once |
| CppDriver.SettersCommute | DFRobot_INA219.cpp:66-82 | setters on different fields commute on the chip |
| CppDriver.SetFieldAbsent | DFRobot_INA219.cpp:148-155 | without a chip a setter still writes the word it builds from the zero its failed read returned |
| CppDriver.ApplyAllPresent | DFRobot_INA219.cpp:24-28 | setter calls on a present chip leave the word their steps make and put one read-modify-write per accepted call on the bus |
| CppDriver.ConfigurePresent | DFRobot_INA219.cpp:24-31 | after the setters, calValue 4096 is kept, written as 0x10, 0x00 and stored, and the status is ok |
| CppDriver.BeginPresent | DFRobot_INA219.cpp:18-37 | with a chip begin returns true with status ok, calValue 4096 in the driver and the chip, and the default settings; bit 14 is kept |
| CppDriver.BeginTraffic | DFRobot_INA219.cpp:24-28 | begin's setters write five words, each setting one more field |
| PyInt.ClearThenSet | Python/RespberryPi/DFRobot_INA219.py:159-160 | clearing a 16-bit mask and OR-ing in a value below 2^16 change bits 0-15 only and keeps the part of the int above them |
| PyInt.OfReading | Python/RespberryPi/DFRobot_INA219.py:265-268 | the int read for a word is its signed value, and its low 16 bits are the word |
| PyInt.WriteWide | Python/RespberryPi/DFRobot_INA219.py:111 | whatever lies above bit 15, the bytes that reach the chip are those of the low word |
| PyDriver.ReadInaReg | Python/RespberryPi/DFRobot_INA219.py:262-268 | a read returns the register's signed value, or raises OSError without a chip, after one read |
| PyDriver.WriteRegister | Python/RespberryPi/DFRobot_INA219.py:110-111 | a 16-bit value is sent as its bytes and stored by a present chip; without a chip OSError |
| PyDriver.SetField | Python/RespberryPi/DFRobot_INA219.py:157-161 | without a chip a setter raises OSError at its read and writes nothing; with one, an argument that fits leaves its field holding it and the rest of the chip as it was; cal_value is kept |
| PyDriver.WriteFieldOnly | Python/RespberryPi/DFRobot_INA219.py:159-161 | the int a setter writes for a fitting argument leaves a present chip's field holding the argument and nothing else changed |
| PyDriver.SetBusRng | Python/RespberryPi/DFRobot_INA219.py:150-161 | on a present chip bit 13 holds the range's code and no other bit changes; without one OSError |
| PyDriver.SetPga | Python/RespberryPi/DFRobot_INA219.py:163-176 | on a present chip bits 11-12 hold the gain's code and no other bit changes; without one OSError |
| PyDriver.AdcGuard | Python/RaspberryPi/DFRobot_INA219.py:118-119 | NameError arises exactly in the RaspberryPi copy below 12 bits, before any transaction; otherwise a refused setting returns silently; cal_value is kept |
| PyDriver.SetBusAdc | Python/RespberryPi/DFRobot_INA219.py:178-208 | in the RespberryPi copy a resolution below 12 bits with one sample reads back from bits 7-10 as requested, and no other bit changes |
| PyDriver.SetShuntAdc | Python/RespberryPi/DFRobot_INA219.py:210-240 | in the RespberryPi copy a resolution below 12 bits with one sample reads back from bits 3-6 as requested, and no other bit changes |
| PyDriver.ReducedResolution | Python/RespberryPi/DFRobot_INA219.py:201-202 | below 12 bits an accepted setting's Python value is the C++ one, which fits the field and decodes back to the setting |
| PyDriver.SetMode | Python/RespberryPi/DFRobot_INA219.py:242-260 | on a present chip bits 0-2 hold the mode's code and no other bit changes; without one OSError |
| PyDriver.Reset | Python/RespberryPi/DFRobot_INA219.py:103-108 | reset as written always raises AttributeError and leaves the object, the chip and the bus as they were |
| PyDriver.ResetIntended | Python/RaspberryPi/DFRobot_INA219.py:80-81 | reset as intended writes 0x80, 0x00 to register 0 and a present chip returns to its power-on state; without a chip OSError; cal_value is kept |
| PyDriver.ResetNeverWrites | Python/RespberryPi/DFRobot_INA219.py:108 | against the intended reset: nothing reaches the bus, and a chip away from its power-on configuration is not reset |
| PyDriver.Apply | Python/RaspberryPi/DFRobot_INA219.py:101-148 | no setter call changes cal_value |
| PyDriver.ApplyAll | Python/RespberryPi/DFRobot_INA219.py:84-88 | setter calls in sequence never change cal_value |
| PyDriver.Begin | Python/RespberryPi/DFRobot_INA219.py:74-89 | begin returns, True exactly when the chip answers; then cal_value is 4096 and the calibration register is untouched; otherwise only the probe happened |
| PyDriver.Configure | Python/RespberryPi/DFRobot_INA219.py:83-89 | after the probe cal_value is 4096 whatever happens; calls raising no NameError on a present chip return True and leave the calibration register alone |
| PyDriver.LinearCal | Python/RespberryPi/DFRobot_INA219.py:91-101 | a zero reading raises ZeroDivisionError first, a missing cal_value AttributeError next; the call returns exactly when the reading is non-zero, begin has run and the chip answers |
| PyDriver.Get | Python/RespberryPi/DFRobot_INA219.py:262-268 | a getter returns the decoded signed register after one read, or raises OSError without a chip |
| PyDriver.GetBusVoltage | Python/RespberryPi/DFRobot_INA219.py:116-122 | the bus getter returns the signed bus register halved, or raises OSError without a chip |
| PyDriver.GetShuntVoltage | Python/RespberryPi/DFRobot_INA219.py:124-130 | the shunt getter returns the signed count of 10 uV steps unscaled, or raises OSError |
| PyDriver.GetCurrent | Python/RespberryPi/DFRobot_INA219.py:132-140 | the current getter returns the signed current register, or raises OSError |
| PyDriver.GetPower | Python/RespberryPi/DFRobot_INA219.py:142-148 | the power getter returns 20 times the power register read as signed, or raises OSError |
| PyDriver.SetFieldPresent | Python/RespberryPi/DFRobot_INA219.py:157-161 | on a present chip a setter reads and writes back the word with its field replaced; the sign bits never reach the bus, and an argument shifted into bit 15 resets the chip |
| PyDriver.ApplyEffect | Python/RaspberryPi/DFRobot_INA219.py:115-141 | a setter call raises NameError, returns silently, or performs one read-modify-write with the Python argument |
| PyDriver.ApplyPresent | Python/RespberryPi/DFRobot_INA219.py:178-208 | a setter call that raises nothing, on a present chip, moves the word one Python step with one read-modify-write |
| PyDriver.ApplyAllPresent | Python/RespberryPi/DFRobot_INA219.py:84-88 | calls that raise no NameError return on a present chip, leave the word their steps make, and leave cal_value alone |
| PyDriver.ConfigurePresent | Python/RespberryPi/DFRobot_INA219.py:83-89 | after the probe, begin returns True with cal_value 4096 and the calibration register untouched |
| PyDriver.BeginPresent | Python/RespberryPi/DFRobot_INA219.py:74-89 | with a chip begin returns True and leaves the configuration 0x7D9F; cal_value is 4096 but nothing is written to the calibration register |
| PyDriver.BeginSettings | Python/RaspberryPi/DFRobot_INA219.py:62-72 | the configuration begin leaves selects the defaults except a single-sample shunt ADC |
| PyDriver.BeginRaisesNothing | Python/RaspberryPi/DFRobot_INA219.py:67-70 | begin's calls are at 12 bits, so neither copy's guard raises on them |
| PyDriver.RespberryGuard | Python/RespberryPi/DFRobot_INA219.py:199-200 | a reduced resolution with averaging returns before any transaction |
| PyDriver.RaspberryGuard | Python/RaspberryPi/DFRobot_INA219.py:118 | every resolution below 12 bits raises NameError before any transaction; at 12 bits the copies agree |
| PyDriver.ApplyIdempotent | Python/RaspberryPi/DFRobot_INA219.py:101-113 | calling a setter twice leaves the chip as calling it once |
| PyDriver.LinearCalWrites | Python/RaspberryPi/DFRobot_INA219.py:74-78 | the new even value is kept and written high byte first; without a chip OSError after cal_value changed |
| Copies.SettersAgree | DFRobot_INA219.cpp:66-129 | apart from 12-bit ADC calls and NameError, a setter call leaves the same chip and bus traffic in both languages |
| Copies.AdcMarkerDiffers | Python/RespberryPi/DFRobot_INA219.py:204 | at 12 bits the C++ field has the averaging marker the Python field lacks: C++ selects 12 bits with the averaging asked for, Python one sample at the reduced resolution its averaging code's low two bits name (9 bits for one sample, 10 for two) |
| Copies.BeginCopiesDiffer | DFRobot_INA219.cpp:18-37 | begin on the same chip: both succeed with 4096; only C++ writes the calibration register and selects 8 shunt samples; Python sets bit 14 |
| Copies.ResetsAgree | DFRobot_INA219.cpp:131-134 | the intended Python reset leaves the same chip and bus traffic as the C++ reset |
| Copies.LinearCalAgree | DFRobot_INA219.cpp:40-44 | linear calibration stores and writes the same value in both languages where C++ is defined |
| Copies.GettersAgree | DFRobot_INA219.cpp:46-64 | bus voltage, current and power agree; the Python shunt voltage is 100 times the C++ one |

## Left out

- Bus transport: smbus and Wire are reduced to a chip that either answers at its address or does not. Timing, clock stretching, NACKs mid-transfer and the Wire buffer are not modelled.
- `scan`, `__init__` and `Wire.begin()`: the probe is one logged `Probe` transaction; opening the bus has no modelled effect, and the "I2C init fail" message both Python `scan` copies print on a failed probe is console output, not modelled.
- Device.Store: the chip is modelled as holding bit 14 of a written configuration word, which the INA219 datasheet marks as unused. The bit-14 claims (PyDriver.BeginPresent's 0x7D9F, Copies.BeginCopiesDiffer's "Python sets bit 14", CppDriver.BeginPresent's "bit 14 is kept") are therefore about the word the driver writes; a real chip may read bit 14 back as 0.
- PyDriver.SetBusAdc, PyDriver.SetShuntAdc: their own contracts cover the resolutions below 12 bits. The 12-bit calls are stated on the words they produce (Config.PyShuntAdcMarkerHitsBusAdc, Config.PyBusAdcMarkerHitsBit14) and tied to the driver by PyDriver.ApplyPresent; the NameError of the RaspberryPi copy is PyDriver.AdcGuard's.
- Device.PowerOn: the shunt and bus voltage registers have no power-on value in the INA219 datasheet, so a reset keeps their contents; the conversions that refill them are not modelled.
- `read_i2c_block_data` returns a 32-byte block; only its first two bytes are used, so the model returns two.
- Transfer.Transmit: smbus is assumed to keep the low 8 bits of each list item it sends. Python's own behaviour for items outside 0..255 depends on the smbus build.
- writeReg's transient `WriteRegError`: writeReg ignores `endTransmission`'s result and always ends at ok, so only the final status is modelled.
- Floating point: `float()`, `* 0.001`, `* 0.01` and the float division in calibration use exact reals, or integers in mV, 10 uV, mA and mW. IEEE rounding, infinities and NaN are not modelled.
- Calibration.PyLinearCal: the ratio is an exact real. A float ratio may truncate to a neighbouring integer when the product lies within rounding error of one.
- CppDriver.LinearCalibrate: requires a non-zero chip reading and a scaled value in (-1, 65536). Outside that the float division or the conversion to `uint16_t` is undefined behaviour in C++.
- Setter arguments are the enumerations of the header. The Python methods accept any int, and an out-of-range int would spill into neighbouring fields; the model does not cover that.
- Copies.AdcMarkerDiffers: stated about the configuration words the two languages' steps produce, not about the driver objects. Copies.SettersAgree and the `ApplyPresent` lemmas connect the words to the drivers.
- The demonstration scripts (`set_config.py`, `setConfig.py`, `get_voltage_current_power.py`) are polling and printing loops around the driver.
- C++ declaration mismatches (`eInaMode_t` in the definition against `eInaMode` in the header) and the undefined `writeConfig` member are build-level matters, not behaviour.

## Findings

| source | as written | input that shows it | evidently intended | confidence | as-written member | corrected member |
|---|---|---|---|---|---|---|
| Python/RespberryPi/DFRobot_INA219.py:236 | the 12-bit ADC value is `0x80 \| sample`, a marker at bit 7 of a 4-bit field | `set_shunt_ADC(adc_bits_12, adc_sample_8)` on 0x0000 writes 0x0418: shunt field 0x3 (one sample), bit 10 of the bus field set | `0x08 \| sample`, as the C++ setSADC at DFRobot_INA219.cpp:115 | not executed; high | Config.PyShuntAdcCounterexample | Config.AdcRoundTrip |
| Python/RespberryPi/DFRobot_INA219.py:108 | reset names `self._INA219_CONFIG_RESET`, but the class defines `INA219_CONFIG_RESET` (line 25); Python/RaspberryPi/DFRobot_INA219.py:81 has the same name | any call of `reset()` raises AttributeError and writes nothing | write 0x8000 to the configuration register, as DFRobot_INA219.cpp:133 | not executed; high | PyDriver.ResetNeverWrites | PyDriver.ResetIntended |
| Python/RaspberryPi/DFRobot_INA219.py:118 | the ADC guard names `adc_sample_1` without `self.` | `set_bus_ADC(adc_bits_9, adc_sample_1)` raises NameError before any transaction | `self.adc_sample_1`, as Python/RespberryPi/DFRobot_INA219.py:199 | not executed; high | PyDriver.RaspberryGuard | PyDriver.SetShuntAdc |
| Python/RespberryPi/DFRobot_INA219.py:122 | bus voltage is the signed reading shifted right by one | register 0x9C40 (20.000 V at the 32 V range begin selects) reads as -12768 mV; 0x000A (4 mV with the ready bit) reads as 5 mV | the unsigned register shifted right by three, times 4 mV | not executed; high for the sign, medium for the ready bit | Measure.BusDecodeCounterexamples | Measure.BusCorrectedExact |
| Python/RespberryPi/DFRobot_INA219.py:130 | the shunt voltage, documented in mV, is the raw count of 10 uV steps | 1 mV across the shunt (count 100) returns 100.0 | the count times 0.01, as DFRobot_INA219.cpp:53 | not executed; high | Measure.ShuntCounterexample | Measure.ShuntDecode |
| Python/RespberryPi/DFRobot_INA219.py:148 | the power register, which holds an unsigned count, is read as signed | register 0x8000 reads as -655360 mW | the unsigned count times 20 mW | not executed; low (the count needs 655 W) | Measure.PowerExamples | Measure.PowerMilliWattsOfRegister |
