# BME280 driver core in Dafny

A model of the numeric and protocol core of a small BME280 driver, a
temperature, pressure and humidity sensor driver, written in C++ for mbed.
The model covers the following parts of the driver:

- The register map and control bits (`bme::reg` in `bme280.h`). These are in `registers.dfy`.
- The decoding of the four calibration blocks into the eighteen trimming
  coefficients `dig_T1..dig_H6`, with their C widths and signedness. This is in `calibration.dfy`.
- The unpacking of the 8-byte raw ADC block. This is in `measures.dfy`.
- The three integer compensation formulas, which the datasheet gives in its
  section 4.2.3. These are in `compensation.dfy`, and `fixedpoint.dfy` holds
  the C operators they need.
- The driver object `BME280` itself. This is in `driver.dfy`. It covers:
  - the identity check and calibration read at construction;
  - the forced-measurement cycle `measure`, which writes `ctrl_hum` and then
    `ctrl_meas`, busy-polls the status register at most 30 times, and on
    success reads the raw block and compensates temperature, then pressure,
    then humidity.

The I2C bus becomes a scripted device (`bus.dfy`) with these parts:

- A fixed 256-register file.
- A script of status bytes. It is consumed one byte per status read. Once
  the script is used up, the register file's own status byte is returned.
- A trace of every transfer, so the order of the driver's bus operations can be stated.

The driver is a class. Its fields are the ones `measure` updates in place:
`adcP/adcT/adcH`, `tFine` and `compT/compP/compH`, together with `available`
and the calibration record `cal`.

The model writes C's operators on signed values in Dafny as follows:

- `x >> k` rounds toward minus infinity. It is written `x / 2^k`, with the power as a literal.
- `x << k` is written `x * 2^k`.
- C's truncating `/` is `FixedPoint.TruncDiv`. Its contract characterises it
  completely (`TruncDivUnique`).

Integers are unbounded (see "Left out").

## Model

| member | source | states |
|---|---|---|
| Registers.CtrlMeasLayout | bme280.h:23-26 | forced, osrs_t_x1 and osrs_p_x1 combine to 0x25, and each constant lies in its own field of ctrl_meas (mode bits 1..0, osrs_p bits 4..2, osrs_t bits 7..5), so masking the combined value gives each constant back |
| Registers.ModeField | bme280.h:26 | forced (0x01) has no bit outside bits 1..0, and masking 0x25 with 0x03 gives it back |
| Registers.OsrsPField | bme280.h:25 | osrs_p_x1 (0x04) has no bit outside bits 4..2, and masking 0x25 with 0x1C gives it back |
| Registers.OsrsTField | bme280.h:24 | osrs_t_x1 (0x20) has no bit outside bits 7..5, and masking 0x25 with 0xE0 gives it back |
| Registers.MeasuringIsBit3 | bme280.h:30 | a status byte reads as busy iff its bit 3 is set; bits other than 0x08 do not matter |
| Registers.LowNibbleMask | bme280.cpp:153 | `0x0F & b` is the low nibble `b % 16` |
| Registers.CalibrationLayout | bme280.h:12-15 | blocks 1–3 (0x88/10, 0x92/10, 0x9C/6) are contiguous and end at 0xA1; block 4 (0xE1/8) ends at 0xE8; the 8-byte measures block fits below 0x100 |
| Registers.DefaultAddress | bme280.h:39 | the default slave address `0x76 << 1` is 0xEC |
| Calibration.U16 | bme280.cpp:114 | `(uint16_t)hi << 8` ORed with `lo` is the u16 whose low byte is `lo` and high byte is `hi` |
| Calibration.I16 | bme280.cpp:115 | the int16 cast of the pair agrees with the u16 modulo 2^16 and is negative iff the high byte is at least 0x80 |
| Calibration.I8 | bme280.cpp:155 | the int8 cast of a byte agrees with it modulo 2^8 and is negative iff the byte is at least 0x80 |
| Calibration.SetCalibPart1 | bme280.cpp:109-120 | dig_T1 = data[1]*256+data[0] and dig_P1 = data[7]*256+data[6] (u16); T2, T3 and P2 are the i16 readings of their pairs; all other coefficients are unchanged |
| Calibration.SetCalibPart2 | bme280.cpp:122-132 | only dig_P3..dig_P7 change (each is the i16 reading of its pair) |
| Calibration.SetCalibPart3 | bme280.cpp:134-143 | dig_H1 = data[5]; only P8, P9 and H1 change |
| Calibration.Join12 | bme280.cpp:153-154 | `hi << 4` ORed with `nibble` is a 12-bit value whose high byte and low nibble are `hi` and `nibble` |
| Calibration.SetCalibPart4 | bme280.cpp:145-157 | dig_H3 = data[2]; dig_H4 = data[3]*16 + (0x0F & data[4]); dig_H5 = data[5]*16 + data[4]>>4; both are in [0, 4095]; only H2..H6 change |
| Calibration.DecodeWellFormed | bme280.cpp:153-154 | every decoded coefficient set has dig_H4 and dig_H5 in [0, 4095] |
| Calibration.DecodeOverwritesAll | bme280.cpp:57-68 | the four blocks together set all eighteen coefficients, so the values held before have no influence |
| Calibration.Part1Fixes | bme280.cpp:114-119 | decoding the encoding of block 1 leaves every coefficient as it was |
| Calibration.Part2Fixes | bme280.cpp:127-131 | the same for block 2 |
| Calibration.Part3Fixes | bme280.cpp:139-142 | the same for block 3 |
| Calibration.Part4Fixes | bme280.cpp:151-155 | the same for block 4, for coefficient sets with 12-bit H4/H5 |
| Calibration.DecodeEncode | bme280.cpp:57-68 | decoding the four blocks that encode a well-formed coefficient set gives it back, whatever the starting state |
| Calibration.Part1Restores | bme280.cpp:114-119 | encoding block 1's coefficients gives the block back byte for byte |
| Calibration.Part2Restores | bme280.cpp:127-131 | the same for block 2 |
| Calibration.Part3Restores | bme280.cpp:139-142 | the same for block 3, except the skipped byte 0xA0 |
| Calibration.Part4Restores | bme280.cpp:151-155 | the same for block 4, except the unused byte 0xE8; the decoded set is well formed |
| Calibration.EncodeDecode | bme280.cpp:57-68 | re-encoding the decoded coefficients gives back every byte the decoder reads |
| Calibration.Part3SkipsA0 | bme280.cpp:142 | the byte at 0xA0 has no effect on any coefficient |
| Calibration.Part4SkipsE8 | bme280.cpp:155 | the byte at 0xE8 has no effect on any coefficient |
| Calibration.SharedNibbleSplit | bme280.cpp:153-154 | the high nibble of 0xE5 does not affect dig_H4, and its low nibble does not affect dig_H5 |
| RawMeasures.Adc20 | bme280.cpp:165 | the OR of `b0<<12`, `b1<<4` and `b2>>4` lies in [0, 2^20) and its digits are b0, b1 and the high nibble of b2 |
| RawMeasures.Unpack | bme280.cpp:159-168 | adc_P = d0*4096 + d1*16 + d2/16 and adc_T likewise from d3..d5, both in [0, 2^20); adc_H = d6*256 + d7, in [0, 65535] |
| RawMeasures.UnpackPack | bme280.cpp:165-167 | unpacking the block that carries in-range counts gives them back |
| RawMeasures.PackUnpack | bme280.cpp:165-167 | packing the unpacked counts gives the block back with only the two discarded nibbles cleared |
| RawMeasures.LowNibblesIgnored | bme280.cpp:165-166 | the low nibbles of 0xF9 and 0xFC do not affect the counts |
| FixedPoint.TruncDiv | bme280.cpp:204 | C's `/`: the remainder is smaller than the divisor in magnitude and, when non-zero, has the sign of the dividend |
| FixedPoint.TruncDivUnique | bme280.cpp:204 | those two properties single out the quotient |
| FixedPoint.TruncDivAgainstFloor | bme280.cpp:204 | C's `/` equals floor division except for negative inexact quotients, where it is one more |
| FixedPoint.FloorDivMonotone | bme280.cpp:183 | an arithmetic right shift keeps the order of its operands |
| Compensation.CompensateT | bme280.cpp:173-185 | t_fine = var1 + var2, and the temperature is floor((5*t_fine + 128)/256), i.e. 5*t_fine/256 rounded to nearest |
| Compensation.TemperatureFollowsFine | bme280.cpp:183 | a larger t_fine never gives a lower temperature |
| Compensation.CompensateP | bme280.cpp:190-209 | the result is 0 whenever the first-stage denominator var1 is 0, so the division (C truncating division, `TruncDiv`) is reached only with a non-zero divisor |
| Compensation.ZeroP1GivesZero | bme280.cpp:198-202 | dig_P1 = 0 makes the denominator 0, so every pressure reading is 0 |
| Compensation.GuardIgnoresAdc | bme280.cpp:199-202 | when the guard fires, the result does not depend on adc_P |
| Compensation.P7IsOffset | bme280.cpp:207 | past the guard, dig_P7 adds exactly 16 per unit to the result |
| Compensation.ClampHumidity | bme280.cpp:230-231 | the clamped value is in [0, 419430400]; values inside are unchanged, negatives give 0 and values above give 419430400 |
| Compensation.CompensateH | bme280.cpp:214-234 | the result is the clamped intermediate shifted right by 12, always in [0, 102400] (0–100 %RH in Q22.10) |
| Compensation.HumiditySaturates | bme280.cpp:229-233 | an intermediate at or above the ceiling reads exactly 102400; one below 4096 reads 0; the result is monotone in the intermediate |
| Bus.Block | bme280.cpp:26-31 | a read of `nb` registers from `start` returns `nb` consecutive registers |
| Bus.CalibrationBlocksContiguous | bme280.cpp:60-64 | the first three calibration reads return the same bytes as one 26-byte read from 0x88 |
| Driver.PollsFromBounds | bme280.cpp:81-85 | from the k-th read on, the loop stops after between k and 30 reads; every earlier read saw the bit set, and an early stop is on a read with the bit clear |
| Driver.PollsBounds | bme280.cpp:80-85 | the status register is read at least once and at most 30 times; all reads but the last saw the measuring bit, and a stop before 30 is on a clear bit |
| Driver.PollsUnique | bme280.cpp:81-85 | those properties determine the number of reads |
| Driver.TimeoutExactly | bme280.cpp:85-91 | the 30-read timeout happens exactly when the first 29 reads saw the measuring bit, whatever the 30th read shows |
| Driver.MeasureOrdering | bme280.cpp:73-97 | a cycle writes ctrl_hum := 0x01, then ctrl_meas := 0x25, then reads the status; the measures block is read, last, iff fewer than 30 polls were made |
| Driver.Bme280.constructor | bme280.cpp:6-16 | `available` iff register 0xD0 holds 0x60; the calibration is read (four block reads after the id read) only in that case |
| Driver.Bme280.ReadReg | bme280.cpp:18-24 | one read transfer of one register; a status read returns the next status byte |
| Driver.Bme280.ReadRegisters | bme280.cpp:26-31 | one read transfer of `nb` consecutive registers |
| Driver.Bme280.WriteReg | bme280.cpp:33-39 | one write transfer of the frame `[reg, val]` |
| Driver.Bme280.CheckId | bme280.cpp:41-55 | true iff register 0xD0 reads 0x60, after exactly one read |
| Driver.Bme280.SetCalibration | bme280.cpp:57-68 | reads the four blocks in order and stores their decoding; no other field changes |
| Driver.Bme280.SetAllMeasures | bme280.cpp:159-168 | the stored raw counts are the unpacking of the block |
| Driver.Bme280.CompensateTemperature | bme280.cpp:173-185 | stores this reading's t_fine and returns the temperature computed from it |
| Driver.Bme280.CompensatePressure | bme280.cpp:190-209 | the pressure from the stored t_fine; 0 when the denominator is 0 |
| Driver.Bme280.CompensateHumidity | bme280.cpp:214-234 | the humidity from the stored t_fine, in [0, 102400] |
| Driver.Bme280.StartConversion | bme280.cpp:73-77 | writes ctrl_hum and then ctrl_meas, and nothing else |
| Driver.Bme280.PollStatus | bme280.cpp:79-85 | the do-while loop makes exactly `Polls(script)` status reads (between 1 and 30) and consumes that many script bytes |
| Driver.Bme280.Complete | bme280.cpp:92-105 | reads the measures block; the stored raw counts, t_fine and outputs are those of one T→P→H cycle on it, with P and H using this cycle's t_fine |
| Driver.Bme280.Measure | bme280.cpp:70-107 | the trace is trigger, `n` polls and, iff n < 30, the block read; the fields hold this cycle's readings when n < 30 and are all unchanged on timeout |

## Left out

- The I2C transport and the mbed types are not modelled. They are replaced by the scripted bus:
  - There is no addressing, ACK/NACK or transport failure; `slaveAdd` is only stored.
  - Writes to ctrl_hum and ctrl_meas are recorded in the trace but do not change the device's registers.
  - The conversion's progress is the status script given to the bus.
- The `pc->printf` logging is not modelled. It has no effect on state.
- `getTemperature`, `getPressure` and `getHumidity` are declared in `bme280.h` but have no definitions, so they are not modelled.
- Timing is not modelled. The poll has no delay, and the 30-read cap is its only bound.
- Integer widths of the compensation formulas are not modelled. All arithmetic is on unbounded integers, so int32/int64 overflow, and the undefined behaviour of left-shifting negative values, is not modelled. The next three lines give the consequence for each formula.
- Compensation.CompensateT: exact only while the C int32 intermediates do not overflow.
- Compensation.CompensateP: exact only while the int64 intermediates do not overflow. The `(uint32_t)` cast on the return path is not applied.
- Compensation.CompensateH: exact only while the int32 intermediates do not overflow. The `(uint32_t)` cast on the return path changes nothing, because its operand is already in [0, 102400].
- Driver.Bme280.constructor: the C++ object leaves the coefficients uninitialised when the id check fails. The model starts them at all zeros (`Calibration.Blank`).
- Compensation.TemperatureFollowsFine: monotonicity of the temperature in `adc_T` itself depends on the coefficients, so it is not stated. Only monotonicity in t_fine is proved.
- Driver.TimeoutExactly: a plain-language description of the driver says a timeout is "all 30 polls busy". The code also counts a conversion that finishes on the 30th read as a timeout. The model follows the code.
- Driver.Bme280.Measure: the same description reports a timeout as a distinguishable status. The code's `measure` returns nothing, so the model returns nothing either. A timeout shows only as the missing measures-block read in the trace and the unchanged fields.
- Calibration.SetCalibPart4: dig_H4 and dig_H5 are decoded as unsigned 12-bit values, because that is what the code does. Other drivers sign-extend these two coefficients.
