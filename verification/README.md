# Thermocouple drivers of the UNM biogas exchange firmware, in Dafny

This project models the two thermocouple drivers of the firmware.

**MAX31856TC** (`max31856.dfy`, with the chip side in `max31856_chip.dfy`) drives a Maxim MAX31856 over SPI.
- It keeps a shadow bank of the chip's twelve configuration registers.
- It reads the thermocouple block (registers 0x0C-0x0F) and the cold-junction block (registers 0x08-0x0B) as 32-bit words.
- It decodes those words into temperatures in °C or °F, or into one of three error sentinels: no device, open circuit, over/under voltage.
- When a reading is exactly zero, it checks registers 0-3 against the shadow bank. If the chip answers but has lost its configuration, it rewrites the whole bank in one burst.

**AdafruitMAX31855** (`max31855.dfy`) reads a MAX31855 frame: a 14-bit thermocouple field, a 12-bit internal-temperature field and three fault flags.
- It folds each thermocouple sample into a 4-sample integer moving average, held in a 32-bit unsigned field.
- It reports that average in °C or °F, optionally plus a calibration offset.
- `calibrate()` sets the offset to the difference between the internal temperature and the thermocouple reading.

`bits.dfy` holds the shared view of a 32-bit word: its four bytes on the bus, most significant first, and its two's-complement value.

How the model represents the hardware:
- **The bus is abstract.** Every read takes as input the bytes the chip drives on MISO. MAX31856TC methods also return the frames they drive on MOSI, one per chip-select assertion.
- **Wire format.** The thermocouple and internal-temperature fields follow the MAX31856 and MAX31855 register layouts. The cold-junction offset (CJTO) is decoded with the driver's own formula, described under "## Left out".
- **Integer widths.** A C `long` is the 32-bit word of the target. All unsigned 32-bit arithmetic is written out modulo 2^32. Four signed left shifts reach into or past the sign bit, which C++ before C++20 leaves undefined: `(long)_registers[0] << 24` (MAX31856TC.cpp:229), `SPI.transfer(0) << 24` (MAX31856TC.cpp:257) and `v <<= 2` on a negative `int32_t` (adafruit-max31855.cpp:95 and :137). The model assumes the target wraps them in two's complement, as its compiler does.
- **Header macros.** `SR_FAULT_OPEN` and `SR_FAULT_UNDER_OVER_VOLTAGE` are not part of this model. They are a parameter record `FaultMasks`: non-zero, disjoint, and inside the status byte.
- **Sentinels.** `FAHRENHEIT` becomes the `Unit` datatype. `NO_MAX31856`, `FAULT_OPEN` and `FAULT_VOLTAGE` become constructors of `Reading`.
- **Doubles** are reals, with NaN as its own value `Double.NaN`.

## Model

| member | source | states |
|---|---|---|
| Max31856.WriteOperation | MAX_31856/lib/MAX31856TC/src/MAX31856TC.cpp:76 | the write opcode has bit 7 set and carries the register address in bits 0-6 |
| Max31856.ReadOperation | MAX_31856/lib/MAX31856TC/src/MAX31856TC.cpp:102 | the read opcode has bit 7 clear and carries the register address in bits 0-6 |
| Max31856.ToUnit | MAX_31856/lib/MAX31856TC/src/MAX31856TC.cpp:134-136 | Celsius is returned unchanged; the Fahrenheit value converts back to the Celsius one |
| Max31856.ToUnitMonotonic | MAX_31856/lib/MAX31856TC/src/MAX31856TC.cpp:134-136 | the unit conversion preserves the order of temperatures, both ways |
| Max31856.ThermocoupleCount | MAX_31856/lib/MAX31856TC/src/MAX31856TC.cpp:126-129 | the 13-bit arithmetic shift of the signed word is a 19-bit count; it is negative exactly when bit 31 is set |
| Max31856.DecodeThermocouple | MAX_31856/lib/MAX31856TC/src/MAX31856TC.cpp:120-137 | open-circuit iff the open bit is set; voltage fault iff only the voltage bit is set; a temperature iff neither; temperatures lie in [-2048, 2048) °C in the unit asked for and are below 0 °C iff bit 31 is set |
| Max31856.ThermocoupleReading | MAX_31856/lib/MAX31856TC/src/MAX31856TC.cpp:110-137 | an all-ones word is no device; a zero word is no device when verification fails and 0 °C (32 °F) otherwise; any other word is decoded |
| Max31856.ThermocoupleLayout | MAX_31856/lib/MAX31856TC/src/MAX31856TC.cpp:126-132 | the shift of the whole word equals the 19-bit value of LTCBH (signed), LTCBM and the top three bits of LTCBL, whatever the status byte holds |
| Max31856.ThermocoupleValue | MAX_31856/lib/MAX31856TC/src/MAX31856TC.cpp:120-136 | with no fault bit set, the reading is that 19-bit value times 2^-7 °C, in the unit asked for |
| Max31856.ThermocoupleExample | MAX_31856/lib/MAX31856TC/src/MAX31856TC.cpp:126-136 | word 0x0C8F0000 reads 200.9375 °C and 393.6875 °F |
| Max31856.JunctionOffset | MAX_31856/lib/MAX31856TC/src/MAX31856TC.cpp:174-179 | register 9 sign-extended: in [-128, 128), negative iff bit 23 is set |
| Max31856.JunctionRaw | MAX_31856/lib/MAX31856TC/src/MAX31856TC.cpp:181-188 | the low half sign-extended from bit 15, less its two unused bits: in [-8192, 8192), negative iff bit 15 is set |
| Max31856.DecodeJunction | MAX_31856/lib/MAX31856TC/src/MAX31856TC.cpp:190-198 | a cold-junction word always decodes to a temperature within ±130 °C, in the unit asked for |
| Max31856.JunctionReading | MAX_31856/lib/MAX31856TC/src/MAX31856TC.cpp:164-172 | the same no-device and zero handling as the thermocouple reading, and the junction decoding otherwise |
| Max31856.JunctionLayout | MAX_31856/lib/MAX31856TC/src/MAX31856TC.cpp:174-194 | the decoding equals the per-register formula the driver applies: CJTO as a signed byte, plus CJTH (signed) and the top six bits of CJTL, all times 2^-6 °C; register 8 is ignored |
| Max31856.JunctionExample | MAX_31856/lib/MAX31856TC/src/MAX31856TC.cpp:174-194 | word 0x00021900 reads 25.03125 °C |
| Bits.MinusOneIsAllOnes | MAX_31856/lib/MAX31856TC/src/MAX31856TC.cpp:110-113 | the signed word is -1 iff all 32 bits are set, which is the word a missing chip sends |
| Bits.ZeroIsAllZeros | MAX_31856/lib/MAX31856TC/src/MAX31856TC.cpp:115-118 | the signed word is 0 iff all 32 bits are clear |
| Max31856.BankWord | MAX_31856/lib/MAX31856TC/src/MAX31856TC.cpp:229 | the word assembled from the bank has shadow registers 0-3 as its bytes, most significant first |
| Max31856.WordsMatchBytes | MAX_31856/lib/MAX31856TC/src/MAX31856TC.cpp:225-230 | the source's word comparisons agree with byte comparisons: the received bytes equal registers 0-3 iff their word equals the bank's word, and are all 0xFF iff their word is all ones |
| Max31856.VerifyVerdict | MAX_31856/lib/MAX31856TC/src/MAX31856TC.cpp:207-231 | verification's result is either 0 or no device, and it is 0 iff the received word is not all ones and equals the bank's word |
| Max31856.VerifyFrames | MAX_31856/lib/MAX31856TC/src/MAX31856TC.cpp:212-248 | verification's frames are the read of register 0, then the recovery burst iff the received word is neither all ones nor the bank's word |
| Max31856.MAX31856TC.constructor | MAX_31856/lib/MAX31856TC/src/MAX31856TC.cpp:37-62 | the shadow bank is a fresh twelve-entry array holding the chip's power-on defaults |
| Max31856.MAX31856TC.WriteRegister | MAX_31856/lib/MAX31856TC/src/MAX31856TC.cpp:66-86 | out-of-range registers are ignored, with nothing sent; otherwise one write frame is sent and exactly that bank entry changes |
| Max31856.MAX31856TC.ReadData | MAX_31856/lib/MAX31856TC/src/MAX31856TC.cpp:254-262 | the word's bytes are the four received bytes, most significant first |
| Max31856.MAX31856TC.VerifyMAX31856 | MAX_31856/lib/MAX31856TC/src/MAX31856TC.cpp:207-249 | the result is VerifyVerdict and the frames are VerifyFrames of the bank and the received bytes: 0 iff the chip answers with the bank's registers 0-3, no device otherwise, and the recovery burst (write opcode for register 0, then all twelve bank entries, built by a loop) exactly when the chip answers with a mismatch |
| Max31856.MAX31856TC.ReadThermocouple | MAX_31856/lib/MAX31856TC/src/MAX31856TC.cpp:93-141 | the result is the thermocouple policy applied to the received word; the frames are the block read, plus verification's frames exactly when the word is zero |
| Max31856.MAX31856TC.ReadJunction | MAX_31856/lib/MAX31856TC/src/MAX31856TC.cpp:147-202 | the same, for the cold-junction block |
| Max31856Chip.WriteBurstAt | MAX_31856/lib/MAX31856TC/src/MAX31856TC.cpp:237-242 | after a burst, each register holds the burst's byte for it if the burst covers it, and is unchanged otherwise |
| Max31856Chip.ReadFrameKeepsChip | MAX_31856/lib/MAX31856TC/src/MAX31856TC.cpp:214-218 | a read frame leaves the chip's configuration unchanged |
| Max31856Chip.WriteFrameSetsRegister | MAX_31856/lib/MAX31856TC/src/MAX31856TC.cpp:72-85 | writeRegister's frame changes exactly the register that writeRegister changes in the bank, so chip and bank stay in step |
| Max31856Chip.RecoveryRestoresBank | MAX_31856/lib/MAX31856TC/src/MAX31856TC.cpp:234-245 | the recovery burst leaves the chip holding the whole bank, whatever it held before |
| Max31856Chip.RecoveryFramesRestore | MAX_31856/lib/MAX31856TC/src/MAX31856TC.cpp:212-245 | on a mismatch, verification's frames together leave the chip holding the bank |
| Max31856Chip.RecoveryTakesOnePoll | MAX_31856/lib/MAX31856TC/src/MAX31856TC.cpp:228-248 | a chip that lost its configuration is reported absent once and restored; the next verification reports 0 and sends only its read |
| Max31856Chip.VerifySyncsFirstFour | MAX_31856/lib/MAX31856TC/src/MAX31856TC.cpp:228-245 | after verification's frames, registers 0-3 of any responding chip agree with the bank |
| Max31856Chip.AllOnesBankNeverVerifies | MAX_31856/lib/MAX31856TC/src/MAX31856TC.cpp:223-231 | a bank whose registers 0-3 are all 0xFF is never confirmed: every verification reports no device, and a chip that holds it gets no rewrite |
| Max31856Chip.OnlyFirstFourChecked | MAX_31856/lib/MAX31856TC/src/MAX31856TC.cpp:228-231 | a chip that differs from the bank only in registers 4-11 passes verification and is not rewritten |
| Max31856Chip.DefaultsReadBack | MAX_31856/lib/MAX31856TC/src/MAX31856TC.cpp:59-61 | after a burst of the power-on bank, registers 0-3 read back as the word verification compares against |
| Max31855.Plus | primaryGasExchangeCode/lib/adafruit-max31855/src/adafruit-max31855.cpp:146-147 | the sum is NaN iff an operand is, and subtracting the second operand gives back the first |
| Max31855.Minus | primaryGasExchangeCode/lib/adafruit-max31855/src/adafruit-max31855.cpp:167 | the difference is NaN iff an operand is, and adding the second operand gives back the first |
| Max31855.Faulted | primaryGasExchangeCode/lib/adafruit-max31855/src/adafruit-max31855.cpp:84-87 | a frame is faulted iff one of the three fault flags, the low bits of its last byte, is set |
| Max31855.Field14 | primaryGasExchangeCode/lib/adafruit-max31855/src/adafruit-max31855.cpp:129-135 | the thermocouple field is in [-8192, 8192) quarter degrees, negative iff bit 31 is set |
| Max31855.Field14IsArithmeticShift | primaryGasExchangeCode/lib/adafruit-max31855/src/adafruit-max31855.cpp:129-135 | the two branches (explicit sign fill, plain shift) together equal the 18-bit arithmetic shift of the signed frame |
| Max31855.Sample | primaryGasExchangeCode/lib/adafruit-max31855/src/adafruit-max31855.cpp:137-138 | the sample is within 2^15 of the offset 8741, and less the offset it is the field's temperature in 1/16 °C |
| Max31855.Average | primaryGasExchangeCode/lib/adafruit-max31855/src/adafruit-max31855.cpp:141 | the uint32 moving-average update; its result is always below 2^30, so a following update with a sample in [0, 2^30) (every frame at or above -546 °C) never wraps; there it is (3·average + sample)/4, see AverageNoWrap |
| Max31855.AverageNegativeSample | primaryGasExchangeCode/lib/adafruit-max31855/src/adafruit-max31855.cpp:141 | for a negative sample (a frame below -546 °C) the `(uint32_t) v` cast makes the sum wrap; the result is still (3·average + sample)/4 while that sum is not negative, and (3·average + sample + 2^32)/4 otherwise |
| Max31855.AverageNoWrap | primaryGasExchangeCode/lib/adafruit-max31855/src/adafruit-max31855.cpp:141 | below 2^30 the unsigned update is the plain (3·average + sample) / 4 |
| Max31855.AverageStaysBetween | primaryGasExchangeCode/lib/adafruit-max31855/src/adafruit-max31855.cpp:141 | the new average lies between the old average and the sample |
| Max31855.AverageFixedPoints | primaryGasExchangeCode/lib/adafruit-max31855/src/adafruit-max31855.cpp:141 | under a constant sample s the average stays put iff it is in [s-3, s] |
| Max31855.AverageApproaches | primaryGasExchangeCode/lib/adafruit-max31855/src/adafruit-max31855.cpp:141 | outside those fixed points the average moves strictly toward the sample without passing it |
| Max31855.CelsiusAsWritten | primaryGasExchangeCode/lib/adafruit-max31855/src/adafruit-max31855.cpp:144 | the unsigned difference from 8741 over 16: never negative and below 2^28 °C; it equals the signed conversion iff the average is at least 8741 (AsWrittenAgreesOnlyFromZero) |
| Max31855.AsWrittenAgreesOnlyFromZero | primaryGasExchangeCode/lib/adafruit-max31855/src/adafruit-max31855.cpp:144 | the unsigned conversion agrees with the signed one iff the average is at least the offset, i.e. at or above 0 °C |
| Max31855.NegativeReadingWraps | primaryGasExchangeCode/lib/adafruit-max31855/src/adafruit-max31855.cpp:144 | a settled -10 °C frame converts to 268435446 °C as written and to -10 °C with the signed difference |
| Max31855.SettledAsWrittenFromZero | primaryGasExchangeCode/lib/adafruit-max31855/src/adafruit-max31855.cpp:137-144 | from 0 °C up, an average settled on a frame reads back through the source's conversion as the frame's temperature |
| Max31855.SettledReadingIsFrameTemperature | primaryGasExchangeCode/lib/adafruit-max31855/src/adafruit-max31855.cpp:137-144 | an average settled on a frame stays put and reads back as the frame's temperature, below zero too |
| Max31855.InternalAsWritten | primaryGasExchangeCode/lib/adafruit-max31855/src/adafruit-max31855.cpp:107-114 | the sign-and-magnitude decode of bits 4-15: within ±127.9375 °C and negative only when bit 15 is set; equal to the two's-complement value when bit 15 is clear (InternalAgreesWhenNonNegative) |
| Max31855.Internal | primaryGasExchangeCode/lib/adafruit-max31855/src/adafruit-max31855.cpp:102-117 | the internal temperature is in [-128, 128) °C and negative iff bit 15 is set |
| Max31855.InternalLayout | primaryGasExchangeCode/lib/adafruit-max31855/src/adafruit-max31855.cpp:106-111 | the internal temperature is the third byte (signed) and the top half of the fourth, in 1/16 °C |
| Max31855.InternalAgreesWhenNonNegative | primaryGasExchangeCode/lib/adafruit-max31855/src/adafruit-max31855.cpp:107-114 | with bit 15 clear, the sign-and-magnitude reading as written equals the two's-complement one |
| Max31855.InternalSignMagnitudeMisreads | primaryGasExchangeCode/lib/adafruit-max31855/src/adafruit-max31855.cpp:107-114 | frame 0x0000FF00 reads -127 °C as written, against -1 °C in two's complement |
| Max31855.Fahrenheit | primaryGasExchangeCode/lib/adafruit-max31855/src/adafruit-max31855.cpp:157-161 | the Fahrenheit value converts back to the Celsius one; NaN stays NaN |
| Max31855.ToInt32 | primaryGasExchangeCode/lib/adafruit-max31855/src/adafruit-max31855.cpp:97-99 | the signed reading of a 32-bit unsigned value has the same bits |
| Max31855.AdafruitMAX31855.Software | primaryGasExchangeCode/lib/adafruit-max31855/src/adafruit-max31855.cpp:27-34 | software mode with the three pins and calibration 0 |
| Max31855.AdafruitMAX31855.SoftwareCalibrated | primaryGasExchangeCode/lib/adafruit-max31855/src/adafruit-max31855.cpp:36-43 | software mode with the three pins and the given calibration |
| Max31855.AdafruitMAX31855.Hardware | primaryGasExchangeCode/lib/adafruit-max31855/src/adafruit-max31855.cpp:45-50 | hardware mode with the chip-select pin and calibration 0 |
| Max31855.AdafruitMAX31855.HardwareCalibrated | primaryGasExchangeCode/lib/adafruit-max31855/src/adafruit-max31855.cpp:52-56 | the chip-select pin and the given calibration; the mode flag is left unspecified, as the source leaves it unset |
| Max31855.AdafruitMAX31855.SpiRead32 | primaryGasExchangeCode/lib/adafruit-max31855/src/adafruit-max31855.cpp:178-187 | the word's bytes are the four bytes shifted in, most significant first |
| Max31855.AdafruitMAX31855.Init | primaryGasExchangeCode/lib/adafruit-max31855/src/adafruit-max31855.cpp:80-99 | on a faulted frame the average is untouched and no value is returned; otherwise the sample becomes the average and is returned |
| Max31855.AdafruitMAX31855.ReadCelsius | primaryGasExchangeCode/lib/adafruit-max31855/src/adafruit-max31855.cpp:119-150 | on a faulted frame: NaN, average untouched; otherwise the sample is folded into the average, which is converted to °C with the source's unsigned subtraction, plus the calibration unless raw; from 0 °C up that is the signed conversion |
| Max31855.AdafruitMAX31855.ReadInternal | primaryGasExchangeCode/lib/adafruit-max31855/src/adafruit-max31855.cpp:102-117 | the internal temperature from the received bytes, read as sign and magnitude as the source does; with the sign bit clear it equals the two's-complement value |
| Max31855.AdafruitMAX31855.ReadError | primaryGasExchangeCode/lib/adafruit-max31855/src/adafruit-max31855.cpp:152-154 | the low three bits of the last byte; non-zero iff the frame is faulted |
| Max31855.AdafruitMAX31855.ReadFahrenheit | primaryGasExchangeCode/lib/adafruit-max31855/src/adafruit-max31855.cpp:156-162 | the calibrated Celsius reading, as readCelsius computes it, converted to °F, with the same average update; NaN on a fault |
| Max31855.AdafruitMAX31855.Calibrate | primaryGasExchangeCode/lib/adafruit-max31855/src/adafruit-max31855.cpp:164-168 | a raw reading updates the average; the calibration becomes the internal reading minus that raw reading, both as the source computes them, or NaN on a faulted frame |
| Max31855.AdafruitMAX31855.CalibrateTo | primaryGasExchangeCode/lib/adafruit-max31855/src/adafruit-max31855.cpp:170-172 | the calibration becomes the given value |
| Max31855.AdafruitMAX31855.ReadCalibration | primaryGasExchangeCode/lib/adafruit-max31855/src/adafruit-max31855.cpp:174-176 | returns the current calibration |
| Max31855.CalibrationAlignsAsWritten | primaryGasExchangeCode/lib/adafruit-max31855/src/adafruit-max31855.cpp:164-168 | with the source's conversions and the average settled on a frame, the next calibrated reading of that frame equals the internal reading taken at calibration |
| Max31855.CalibrationAlignsWithInternal | primaryGasExchangeCode/lib/adafruit-max31855/src/adafruit-max31855.cpp:164-168 | the same with the signed Celsius and two's-complement internal conversions |

## Left out

- SPI and GPIO set-up: clock speed, SPI mode, bit order, pin modes, chip-select levels and timing delays. They carry no data.
- The bit-banged branch of `spiread32` (adafruit-max31855.cpp:188-207) is not modelled. It clocks in the same 32 bits one at a time, and only the hardware branch, byte by byte, is.
- Floating-point rounding: doubles and floats are reals. `readFarenheit`'s narrowing to `float` is not modelled.
- The header `MAX31856TC.h` is not part of this model. Its fault masks are a `FaultMasks` parameter, and its sentinel doubles are `Reading` constructors rather than particular numbers.
- Max31855.AdafruitMAX31855.Init: the source returns `NAN` from an `int` function on a faulted frame, which is undefined in C++. The model returns `None` instead.
- The class AdafruitMAX31855 follows the source as written, including the two defects under "## Findings". The intended conversions `Celsius` and `Internal` are separate functions, with their own lemmas.
- Max31856.DecodeJunction: adds the CJTO byte to the 1/64 °C cold-junction count unscaled, as the driver does. Whether the chip weights CJTO differently, or already folds it into CJTH:CJTL, is not part of this model, so no defect is claimed there.
- A bank configured with FF FF FF FF in registers 0-3 makes the chip indistinguishable from a missing one (`Max31856Chip.AllOnesBankNeverVerifies`). The driver does nothing against this, and neither does the model.
- Max31855.AdafruitMAX31855.HardwareCalibrated: the mode flag is left unassigned. The model states nothing about which `spiread32` branch such an object would take.
- The moving average before `init` is whatever the field holds; the model leaves it unconstrained, as no constructor assigns it (adafruit-max31855.cpp:27-56); a driver declared as a global starts at zero, which this covers.
- Max31856.MAX31856TC.VerifyMAX31856 and the read methods report the frames they send, but not the chip's state. The chip's response to those frames is modelled separately, as functions in `Max31856Chip`.

## Findings

| source | as written | input that shows it | evidently intended | confidence | as-written member | corrected member |
|---|---|---|---|---|---|---|
| primaryGasExchangeCode/lib/adafruit-max31855/src/adafruit-max31855.cpp:144 | `_movingRawTemp - 8741` is computed in 32-bit unsigned arithmetic and wraps whenever the average is below the offset, i.e. for every temperature below 0 °C | frame 0xFF600000 (-10 °C, no fault), average settled at 8581: reads 268435446.0 °C | the signed difference, giving -10.0 °C | high; not executed | Max31855.NegativeReadingWraps | Max31855.SettledReadingIsFrameTemperature |
| primaryGasExchangeCode/lib/adafruit-max31855/src/adafruit-max31855.cpp:107-114 | the internal-temperature field is read as sign and magnitude (bits 4-14 negated when bit 15 is set), but the chip sends 12-bit two's complement | frame 0x0000FF00 (field 0xFF0, -1 °C): reads -127.0 °C | -1.0 °C | high; not executed | Max31855.InternalSignMagnitudeMisreads | Max31855.InternalLayout |
