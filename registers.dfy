/**
 * The register map of the BME280 and the control and status bits the driver
 * uses (namespace `bme::reg` of bme280.h), together with the byte type of the
 * bus and the two bitwise operations the driver applies to bytes.
 */
module Registers {

  /** An unsigned 8-bit value as it travels on the bus. */
  type byte = x: int | 0 <= x < 0x100

  /**
   * C's `a & b`, bit by bit from the lowest: bit 0 of the result is set when
   * it is set in both operands, and the higher bits are those of `a / 2 & b / 2`.
   */
  function BitAnd(a: nat, b: nat): (r: nat)
    ensures r <= a && r <= b
    decreases a
  {
    if a == 0 || b == 0 then 0
    else 2 * BitAnd(a / 2, b / 2) + (if a % 2 == 1 && b % 2 == 1 then 1 else 0)
  }

  /** C's `a | b`, bit by bit from the lowest, like BitAnd. */
  function BitOr(a: nat, b: nat): (r: nat)
    ensures a <= r && b <= r && r <= a + b
    decreases a
  {
    if a == 0 then b
    else if b == 0 then a
    else 2 * BitOr(a / 2, b / 2) + (if a % 2 == 1 || b % 2 == 1 then 1 else 0)
  }

  // Register addresses
  const IdReg: byte := 0xD0
  const CalibP1: byte := 0x88
  const CalibP2: byte := 0x92
  const CalibP3: byte := 0x9C
  const CalibP4: byte := 0xE1
  const CtrlHum: byte := 0xF2
  const Status: byte := 0xF3
  const CtrlMeas: byte := 0xF4
  const Measures: byte := 0xF7

  /** The value the identity register holds on a BME280. */
  const IdVal: byte := 0x60

  // Sizes of the blocks read from the calibration and measurement areas
  const CalibSize1: nat := 10
  const CalibSize2: nat := 10
  const CalibSize3: nat := 6
  const CalibSize4: nat := 8
  const MeasuresSize: nat := 8

  // Control bits (`bme::reg::ctrl`)
  const OsrsHX1: byte := 0x01
  const OsrsTX1: byte := 0x20
  const OsrsPX1: byte := 0x04
  const Forced: byte := 0x01

  // Status bits (`bme::reg::bits`)
  const MeasuringBit: byte := 0x08

  /** The 7-bit device address 0x76 shifted into the 8-bit address form. */
  const DefaultSlaveAddress: byte := 0x76 * 2

  /** The value written to ctrl_meas to start one forced conversion. */
  function CtrlMeasForced(): byte {
    CtrlMeasValue();
    BitOr(BitOr(Forced, OsrsTX1), OsrsPX1)
  }

  /** True while the status byte says a conversion is still running. */
  predicate IsMeasuring(status: byte) {
    BitAnd(status, MeasuringBit) != 0
  }

  /** The bits of `value` that lie outside `mask`: C's `value & ~mask` on a byte. */
  function Outside(value: byte, mask: byte): byte {
    BitAnd(value, 0xFF - mask)
  }

  lemma CtrlMeasValue()
    ensures BitOr(BitOr(Forced, OsrsTX1), OsrsPX1) == 0x25
  {
    // the recursion of BitOr, from the top bit down
    assert BitOr(Forced, OsrsTX1) == 0x21;
    assert BitOr(8, 1) == 9;
    assert BitOr(16, 2) == 18;
  }

  // The three fields of ctrl_meas; each value follows the recursion of BitAnd from the top bit down.

  lemma ModeField()
    ensures Outside(Forced, 0x03) == 0 && BitAnd(0x25, 0x03) == Forced
  {
    assert BitAnd(0x12, 1) == 0;
  }

  lemma OsrsPField()
    ensures Outside(OsrsPX1, 0x1C) == 0 && BitAnd(0x25, 0x1C) == OsrsPX1
  {
    assert BitAnd(1, 0x38) == 0 && BitAnd(2, 0x71) == 0;
    assert BitAnd(2, 1) == 0 && BitAnd(4, 3) == 0 && BitAnd(9, 7) == 1 && BitAnd(0x12, 0x0E) == 2;
  }

  lemma OsrsTField()
    ensures Outside(OsrsTX1, 0xE0) == 0 && BitAnd(0x25, 0xE0) == OsrsTX1
  {
    assert BitAnd(2, 1) == 0 && BitAnd(4, 3) == 0 && BitAnd(8, 7) == 0 && BitAnd(16, 15) == 0;
    assert BitAnd(1, 7) == 1 && BitAnd(2, 0x0E) == 2 && BitAnd(4, 0x1C) == 4;
    assert BitAnd(9, 0x38) == 8 && BitAnd(0x12, 0x70) == 0x10;
  }

  /**
   * The ctrl_meas value is 0x25, and its three parts sit in the three fields
   * of that register: mode in bits 1..0, osrs_p in bits 4..2 and osrs_t in
   * bits 7..5, so none of them disturbs another.
   */
  lemma CtrlMeasLayout()
    ensures CtrlMeasForced() == 0x25
    ensures Outside(Forced, 0x03) == 0 && Outside(OsrsPX1, 0x1C) == 0 && Outside(OsrsTX1, 0xE0) == 0
    ensures BitAnd(CtrlMeasForced(), 0x03) == Forced
    ensures BitAnd(CtrlMeasForced(), 0x1C) == OsrsPX1
    ensures BitAnd(CtrlMeasForced(), 0xE0) == OsrsTX1
  {
    CtrlMeasValue();
    ModeField();
    OsrsPField();
    OsrsTField();
  }

  /** Bit 3 alone: `s & 0x08` is 8 when bit 3 of `s` is set and 0 otherwise. */
  lemma {:induction false} MaskBit3(s: nat)
    ensures BitAnd(s, MeasuringBit) == 8 * ((s / 8) % 2)
  {
    if s > 0 {
      var s2, s4, s8 := s / 2, s / 4, s / 8;
      assert s2 / 2 == s4 && s4 / 2 == s8;
      assert BitAnd(s, 8) == 2 * BitAnd(s2, 4);
      if s2 > 0 {
        assert BitAnd(s2, 4) == 2 * BitAnd(s4, 2);
        if s4 > 0 {
          assert BitAnd(s4, 2) == 2 * BitAnd(s8, 1);
          if s8 > 0 { assert BitAnd(s8 / 2, 0) == 0; }
        }
      }
    }
  }

  /**
   * The measuring flag is bit 3 of the status byte alone: whether a status
   * byte reads as busy depends on that bit and on no other.
   */
  lemma MeasuringIsBit3(status: byte)
    ensures IsMeasuring(status) <==> (status / 8) % 2 == 1
    ensures IsMeasuring(status) <==> IsMeasuring(BitAnd(status, MeasuringBit))
  {
    MaskBit3(status);
    MaskBit3(BitAnd(status, MeasuringBit));
  }

  /** Bit 0 alone: `x & 1` is the parity of `x`. */
  lemma {:induction false} MaskLow1(x: nat)
    ensures BitAnd(1, x) == x % 2
  {
    if x > 0 { assert BitAnd(0, x / 2) == 0; }
  }

  lemma {:induction false} MaskLow3(x: nat)
    ensures BitAnd(3, x) == x % 4
  {
    MaskLow1(x / 2);
    Mod4Split(x);
  }

  lemma {:induction false} MaskLow7(x: nat)
    ensures BitAnd(7, x) == x % 8
  {
    MaskLow3(x / 2);
    Mod8Split(x);
  }

  /** Masking a byte with 0x0F keeps its low nibble. */
  lemma {:induction false} LowNibbleMask(b: byte)
    ensures BitAnd(0x0F, b) == b % 16
  {
    MaskLow7(b / 2);
    Mod16Split(b);
  }

  // A remainder by a power of two is the lowest bit plus twice the remainder of the half.

  lemma Mod4Split(x: nat)
    ensures x % 4 == x % 2 + 2 * ((x / 2) % 2)
  {
  }

  lemma Mod8Split(x: nat)
    ensures x % 8 == x % 2 + 2 * ((x / 2) % 4)
  {
  }

  lemma Mod16Split(x: nat)
    ensures x % 16 == x % 2 + 2 * ((x / 2) % 8)
  {
  }

  /**
   * The calibration area: the first three blocks follow each other without a
   * gap or an overlap and cover 0x88..0xA1; the fourth covers 0xE1..0xE8.
   */
  lemma CalibrationLayout()
    ensures CalibP1 + CalibSize1 == CalibP2
    ensures CalibP2 + CalibSize2 == CalibP3
    ensures CalibP3 + CalibSize3 - 1 == 0xA1
    ensures CalibP4 + CalibSize4 - 1 == 0xE8
    ensures Measures + MeasuresSize <= 0x100
  {
  }

  /** The default address of the device is 0xEC on the bus. */
  lemma DefaultAddress()
    ensures DefaultSlaveAddress == 0xEC
  {
  }
}
