/**
 * The integer compensation formulas of section 4.2.3 of the BME280
 * datasheet, as the driver writes them (`compensate_T_int32`,
 * `compensate_P_int64`, `compensate_H_int32`).  Each turns a raw ADC count
 * and the trimming coefficients into a physical value; pressure and
 * humidity also take the fine temperature the temperature step produces.
 */
module Compensation {
  import opened FixedPoint
  import opened Calibration

  /** The temperature step's two results: 0.01 degC units and the shared t_fine. */
  datatype Temperature = Temperature(centiCelsius: int, tFine: int)

  /** `t_fine = var1 + var2` of `compensate_T_int32`. */
  function FineTemperature(adcT: int, c: CalibrationData): int {
    var var1 := ((adcT / 8 - c.digT1 * 2) * c.digT2) / 2048;       // >> 3, << 1, >> 11
    var d := adcT / 16 - c.digT1;                                   // >> 4
    var var2 := ((d * d) / 4096 * c.digT3) / 16384;                 // >> 12, >> 14
    var1 + var2
  }

  /**
   * `compensate_T_int32`: t_fine counts 1/5120 degC, so the temperature in
   * hundredths of a degree is 5 * t_fine / 256, rounded to the nearest
   * integer (halves upwards).
   */
  function CompensateT(adcT: int, c: CalibrationData): (r: Temperature)
    ensures r.tFine == FineTemperature(adcT, c)
    ensures 256 * r.centiCelsius <= 5 * r.tFine + 128 < 256 * r.centiCelsius + 256
  {
    var tFine := FineTemperature(adcT, c);
    Temperature((tFine * 5 + 128) / 256, tFine)
  }

  /** A warmer t_fine never gives a lower temperature reading. */
  lemma {:induction false} TemperatureFollowsFine(adcT: int, adcT': int, c: CalibrationData)
    requires FineTemperature(adcT, c) <= FineTemperature(adcT', c)
    ensures CompensateT(adcT, c).centiCelsius <= CompensateT(adcT', c).centiCelsius
  {
    FloorDivMonotone(FineTemperature(adcT, c) * 5 + 128, FineTemperature(adcT', c) * 5 + 128, 256);
  }

  /** The first-stage `var1` of `compensate_P_int64` (line 198): the divisor of the final stage. */
  function PressureDenominator(tFine: int, c: CalibrationData): int {
    var var1 := tFine - 128000;
    var var1' := (var1 * var1 * c.digP3) / 256 + var1 * c.digP2 * 4096;   // >> 8, << 12
    ((0x8000_0000_0000 + var1') * c.digP1) / 0x2_0000_0000               // 1 << 47, >> 33
  }

  /** The `var2` of `compensate_P_int64` once line 196 has run. */
  function PressureOffset(tFine: int, c: CalibrationData): int {
    var var1 := tFine - 128000;
    var var2 := var1 * var1 * c.digP6;
    var var2' := var2 + var1 * c.digP5 * 0x2_0000;                     // << 17
    var2' + c.digP4 * 0x8_0000_0000                                     // << 35
  }

  /**
   * `compensate_P_int64`: pressure in Pa as Q24.8.  When the first-stage
   * denominator is zero the result is 0 and the division is never reached.
   */
  function CompensateP(adcP: int, tFine: int, c: CalibrationData): (r: int)
    ensures PressureDenominator(tFine, c) == 0 ==> r == 0
  {
    var var1 := PressureDenominator(tFine, c);
    if var1 == 0 then
      0
    else
      var p := 1048576 - adcP;
      var p' := TruncDiv((p * 0x8000_0000 - PressureOffset(tFine, c)) * 3125, var1);   // << 31
      var var1' := (c.digP9 * (p' / 0x2000) * (p' / 0x2000)) / 0x200_0000;               // >> 13, >> 25
      var var2' := (c.digP8 * p') / 0x8_0000;                                           // >> 19
      (p' + var1' + var2') / 256 + c.digP7 * 16                                         // >> 8, << 4
  }

  /**
   * A calibration whose dig_P1 is zero forces the denominator to zero: every
   * pressure reading is then the sentinel 0.
   */
  lemma ZeroP1GivesZero(adcP: int, tFine: int, c: CalibrationData)
    requires c.digP1 == 0
    ensures PressureDenominator(tFine, c) == 0
    ensures CompensateP(adcP, tFine, c) == 0
  {
  }

  /**
   * Whether the zero guard fires depends on t_fine and the calibration only:
   * for a given t_fine either every raw pressure gives 0 through the guard
   * or none reaches it.
   */
  lemma {:induction false} GuardIgnoresAdc(adcP: int, adcP': int, tFine: int, c: CalibrationData)
    requires PressureDenominator(tFine, c) == 0
    ensures CompensateP(adcP, tFine, c) == CompensateP(adcP', tFine, c)
  {
  }

  /** dig_P7 is a pure offset: each unit of it adds 16/256 Pa to a reading past the guard. */
  lemma {:induction false} P7IsOffset(adcP: int, tFine: int, c: CalibrationData, p7: i16)
    requires PressureDenominator(tFine, c) != 0
    ensures CompensateP(adcP, tFine, c.(digP7 := p7)) == CompensateP(adcP, tFine, c) + 16 * (p7 - c.digP7)
  {
    var c' := c.(digP7 := p7);
    assert PressureDenominator(tFine, c') == PressureDenominator(tFine, c);
    assert PressureOffset(tFine, c') == PressureOffset(tFine, c);
  }

  /** 100 %RH in the Q22.10 format, shifted left by 12: the clamp's upper bound. */
  const HumidityCeiling := 419430400

  /** The value of `v_x1_u32r` of `compensate_H_int32` after line 229, before the clamp. */
  function HumidityUnclamped(adcH: int, tFine: int, c: CalibrationData): int {
    var x := tFine - 76800;
    // << 14, << 20, >> 15
    var a := (adcH * 0x4000 - c.digH4 * 0x10_0000 - c.digH5 * x + 16384) / 0x8000;
    // >> 10, >> 11, >> 10, >> 14
    var b := ((((x * c.digH6) / 1024 * ((x * c.digH3) / 2048 + 32768)) / 1024 + 2097152) * c.digH2 + 8192) / 0x4000;
    var v := a * b;
    // >> 15, >> 15, >> 7, >> 4
    v - (((v / 0x8000) * (v / 0x8000)) / 128 * c.digH1) / 16
  }

  /** Lines 230-231: the intermediate is held in [0, 419430400]. */
  function ClampHumidity(v: int): (r: int)
    ensures 0 <= r <= HumidityCeiling
    ensures 0 <= v <= HumidityCeiling ==> r == v
    ensures v < 0 ==> r == 0
    ensures v > HumidityCeiling ==> r == HumidityCeiling
  {
    var v' := if v < 0 then 0 else v;
    if v' > HumidityCeiling then HumidityCeiling else v'
  }

  /**
   * `compensate_H_int32`: relative humidity in Q22.10, the clamped
   * intermediate shifted right by 12, so always within 0..100 %RH.
   */
  function CompensateH(adcH: int, tFine: int, c: CalibrationData): (r: int)
    ensures 0 <= r <= 102400
    ensures 4096 * r <= ClampHumidity(HumidityUnclamped(adcH, tFine, c)) < 4096 * r + 4096
  {
    ClampHumidity(HumidityUnclamped(adcH, tFine, c)) / 4096             // >> 12
  }

  /**
   * Saturation: an intermediate at or above the ceiling reads exactly
   * 100 %RH, one below 4096 (including every negative one) reads 0 %RH, and
   * in between the reading never decreases as the intermediate grows.
   */
  lemma {:induction false} HumiditySaturates(adcH: int, adcH': int, tFine: int, c: CalibrationData)
    ensures HumidityUnclamped(adcH, tFine, c) >= HumidityCeiling ==> CompensateH(adcH, tFine, c) == 100 * 1024
    ensures HumidityUnclamped(adcH, tFine, c) < 4096 ==> CompensateH(adcH, tFine, c) == 0
    ensures HumidityUnclamped(adcH, tFine, c) <= HumidityUnclamped(adcH', tFine, c)
            ==> CompensateH(adcH, tFine, c) <= CompensateH(adcH', tFine, c)
  {
    var u, u' := HumidityUnclamped(adcH, tFine, c), HumidityUnclamped(adcH', tFine, c);
    if u <= u' {
      FloorDivMonotone(ClampHumidity(u), ClampHumidity(u'), 4096);
    }
  }
}
