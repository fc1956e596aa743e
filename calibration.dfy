/**
 * The trimming parameters of the BME280 (section 4.2.2 of the BME280
 * datasheet): four blocks of bytes read from the calibration area become
 * eighteen coefficients of mixed width and signedness.  Each of the four
 * `set_calib_part*` routines of the driver overwrites the coefficients its
 * block carries and leaves the others as they were.
 */
module Calibration {
  import opened Registers

  // The widths and signedness the driver gives the coefficient fields
  type u8 = x: int | 0 <= x < 0x100
  type i8 = x: int | -0x80 <= x < 0x80
  type u16 = x: int | 0 <= x < 0x1_0000
  type i16 = x: int | -0x8000 <= x < 0x8000

  datatype CalibrationData = CalibrationData(
    digT1: u16, digT2: i16, digT3: i16,
    digP1: u16, digP2: i16, digP3: i16, digP4: i16, digP5: i16,
    digP6: i16, digP7: i16, digP8: i16, digP9: i16,
    digH1: u8, digH2: i16, digH3: u8, digH4: i16, digH5: i16, digH6: i8)

  /** All coefficients zero: the state before the calibration area is read. */
  const Blank := CalibrationData(0, 0, 0, 0, 0, 0, 0, 0, 0, 0, 0, 0, 0, 0, 0, 0, 0, 0)

  /** `(uint16_t)hi << 8 | lo`: the unsigned little-endian pair `lo`, `hi`. */
  function U16(lo: byte, hi: byte): (r: u16)
    ensures r % 0x100 == lo && r / 0x100 == hi
  {
    hi * 0x100 + lo
  }

  /** `(int16_t)((uint16_t)hi << 8 | lo)`: the two's-complement reading of the pair. */
  function I16(lo: byte, hi: byte): (r: i16)
    ensures (r - U16(lo, hi)) % 0x1_0000 == 0
    ensures r < 0 <==> hi >= 0x80
  {
    var u := U16(lo, hi);
    if u < 0x8000 then u else u - 0x1_0000
  }

  /** `(int8_t)b`: the two's-complement reading of one byte. */
  function I8(b: byte): (r: i8)
    ensures (r - b) % 0x100 == 0
    ensures r < 0 <==> b >= 0x80
  {
    if b < 0x80 then b else b - 0x100
  }

  /** The bit pattern of a signed 16-bit value, as an unsigned one. */
  function Bits16(v: i16): (u: u16)
    ensures (u - v) % 0x1_0000 == 0
  {
    if v < 0 then v + 0x1_0000 else v
  }

  /** The two bytes, low one first, that hold the bit pattern `u`. */
  function LittleEndian(u: u16): (s: seq<byte>)
    ensures |s| == 2 && U16(s[0], s[1]) == u
  {
    [u % 0x100, u / 0x100]
  }

  lemma {:induction false} I16OfBits(v: i16)
    ensures I16(LittleEndian(Bits16(v))[0], LittleEndian(Bits16(v))[1]) == v
  {
  }

  lemma {:induction false} BitsOfI16(lo: byte, hi: byte)
    ensures LittleEndian(Bits16(I16(lo, hi))) == [lo, hi]
  {
  }

  /** `set_calib_part1_10`: the block at 0x88 carries dig_T1..dig_T3, dig_P1, dig_P2. */
  function SetCalibPart1(c: CalibrationData, data: seq<byte>): (r: CalibrationData)
    requires |data| == CalibSize1
    ensures r.digT1 == data[1] as int * 0x100 + data[0] && r.digP1 == data[7] as int * 0x100 + data[6]
    ensures r == c.(digT1 := r.digT1, digT2 := r.digT2, digT3 := r.digT3, digP1 := r.digP1, digP2 := r.digP2)
  {
    c.(digT1 := U16(data[0], data[1]), digT2 := I16(data[2], data[3]), digT3 := I16(data[4], data[5]),
       digP1 := U16(data[6], data[7]), digP2 := I16(data[8], data[9]))
  }

  /** `set_calib_part2_10`: the block at 0x92 carries dig_P3..dig_P7. */
  function SetCalibPart2(c: CalibrationData, data: seq<byte>): (r: CalibrationData)
    requires |data| == CalibSize2
    ensures r == c.(digP3 := r.digP3, digP4 := r.digP4, digP5 := r.digP5, digP6 := r.digP6, digP7 := r.digP7)
  {
    c.(digP3 := I16(data[0], data[1]), digP4 := I16(data[2], data[3]), digP5 := I16(data[4], data[5]),
       digP6 := I16(data[6], data[7]), digP7 := I16(data[8], data[9]))
  }

  /** `set_calib_part3_6`: the block at 0x9C carries dig_P8, dig_P9 and dig_H1; 0xA0 is skipped. */
  function SetCalibPart3(c: CalibrationData, data: seq<byte>): (r: CalibrationData)
    requires |data| == CalibSize3
    ensures r.digH1 == data[5]
    ensures r == c.(digP8 := r.digP8, digP9 := r.digP9, digH1 := r.digH1)
  {
    c.(digP8 := I16(data[0], data[1]), digP9 := I16(data[2], data[3]), digH1 := data[5])
  }

  /** `(uint16_t)hi << 4 | nibble`: a 12-bit value from a whole byte and a nibble. */
  function Join12(hi: byte, nibble: int): (r: i16)
    requires 0 <= nibble < 16
    ensures 0 <= r < 0x1000 && r / 16 == hi && r % 16 == nibble
  {
    hi * 16 + nibble
  }

  /**
   * `set_calib_part4_8`: the block at 0xE1 carries dig_H2..dig_H6.  dig_H4 and
   * dig_H5 are 12-bit values sharing the byte at 0xE5: dig_H4 takes its low
   * nibble, dig_H5 its high nibble.  The byte at 0xE8 is not used.
   */
  function SetCalibPart4(c: CalibrationData, data: seq<byte>): (r: CalibrationData)
    requires |data| == CalibSize4
    ensures r.digH3 == data[2]
    ensures r.digH4 == data[3] as int * 16 + BitAnd(0x0F, data[4])
    ensures r.digH5 == data[5] as int * 16 + data[4] / 16
    ensures 0 <= r.digH4 < 0x1000 && 0 <= r.digH5 < 0x1000
    ensures r == c.(digH2 := r.digH2, digH3 := r.digH3, digH4 := r.digH4, digH5 := r.digH5, digH6 := r.digH6)
  {
    LowNibbleMask(data[4]);
    c.(digH2 := I16(data[0], data[1]), digH3 := data[2],
       digH4 := Join12(data[3], data[4] % 16), digH5 := Join12(data[5], data[4] / 16),
       digH6 := I8(data[6]))
  }

  /** `set_calibration`: the four blocks applied in the order the driver reads them. */
  function Decode(c: CalibrationData, b1: seq<byte>, b2: seq<byte>, b3: seq<byte>, b4: seq<byte>): CalibrationData
    requires |b1| == CalibSize1 && |b2| == CalibSize2 && |b3| == CalibSize3 && |b4| == CalibSize4
  {
    SetCalibPart4(SetCalibPart3(SetCalibPart2(SetCalibPart1(c, b1), b2), b3), b4)
  }

  /** The coefficients the decoder can produce: both shared-nibble values are 12-bit. */
  predicate WellFormed(c: CalibrationData) {
    0 <= c.digH4 < 0x1000 && 0 <= c.digH5 < 0x1000
  }

  // Encoders: the byte blocks that decode to given coefficients.  The bytes
  // the decoder skips are written as zero.

  function Block1(c: CalibrationData): (s: seq<byte>)
    ensures |s| == CalibSize1
  {
    LittleEndian(c.digT1) + LittleEndian(Bits16(c.digT2)) + LittleEndian(Bits16(c.digT3))
    + LittleEndian(c.digP1) + LittleEndian(Bits16(c.digP2))
  }

  function Block2(c: CalibrationData): (s: seq<byte>)
    ensures |s| == CalibSize2
  {
    LittleEndian(Bits16(c.digP3)) + LittleEndian(Bits16(c.digP4)) + LittleEndian(Bits16(c.digP5))
    + LittleEndian(Bits16(c.digP6)) + LittleEndian(Bits16(c.digP7))
  }

  function Block3(c: CalibrationData): (s: seq<byte>)
    ensures |s| == CalibSize3
  {
    LittleEndian(Bits16(c.digP8)) + LittleEndian(Bits16(c.digP9)) + [0, c.digH1]
  }

  function Block4(c: CalibrationData): (s: seq<byte>)
    requires WellFormed(c)
    ensures |s| == CalibSize4
  {
    LittleEndian(Bits16(c.digH2))
    + [c.digH3, c.digH4 / 16, (c.digH5 % 16) * 16 + c.digH4 % 16, c.digH5 / 16,
       if c.digH6 < 0 then c.digH6 + 0x100 else c.digH6, 0]
  }

  /** Every decoded coefficient set is well formed. */
  lemma DecodeWellFormed(c: CalibrationData, b1: seq<byte>, b2: seq<byte>, b3: seq<byte>, b4: seq<byte>)
    requires |b1| == CalibSize1 && |b2| == CalibSize2 && |b3| == CalibSize3 && |b4| == CalibSize4
    ensures WellFormed(Decode(c, b1, b2, b3, b4))
  {
  }

  /**
   * The four blocks together set every coefficient: what the driver held
   * before reading them has no influence on the result.
   */
  lemma DecodeOverwritesAll(c: CalibrationData, c': CalibrationData,
                            b1: seq<byte>, b2: seq<byte>, b3: seq<byte>, b4: seq<byte>)
    requires |b1| == CalibSize1 && |b2| == CalibSize2 && |b3| == CalibSize3 && |b4| == CalibSize4
    ensures Decode(c, b1, b2, b3, b4) == Decode(c', b1, b2, b3, b4)
  {
  }

  // Each block, decoded over the coefficients it was encoded from, changes nothing.

  lemma {:induction false} Part1Fixes(c: CalibrationData)
    ensures SetCalibPart1(c, Block1(c)) == c
  {
    I16OfBits(c.digT2); I16OfBits(c.digT3); I16OfBits(c.digP2);
  }

  lemma {:induction false} Part2Fixes(c: CalibrationData)
    ensures SetCalibPart2(c, Block2(c)) == c
  {
    I16OfBits(c.digP3); I16OfBits(c.digP4); I16OfBits(c.digP5); I16OfBits(c.digP6); I16OfBits(c.digP7);
  }

  lemma {:induction false} Part3Fixes(c: CalibrationData)
    ensures SetCalibPart3(c, Block3(c)) == c
  {
    I16OfBits(c.digP8); I16OfBits(c.digP9);
  }

  lemma {:induction false} Part4Fixes(c: CalibrationData)
    requires WellFormed(c)
    ensures SetCalibPart4(c, Block4(c)) == c
  {
    I16OfBits(c.digH2);
    var b := Block4(c);
    assert b[3] == c.digH4 / 16 && b[5] == c.digH5 / 16;
    assert b[4] % 16 == c.digH4 % 16 && b[4] / 16 == c.digH5 % 16;
    LowNibbleMask(b[4]);
  }

  /** Decoding the blocks that encode a well-formed coefficient set gives it back. */
  lemma {:induction false} DecodeEncode(c0: CalibrationData, c: CalibrationData)
    requires WellFormed(c)
    ensures Decode(c0, Block1(c), Block2(c), Block3(c), Block4(c)) == c
  {
    DecodeOverwritesAll(c0, c, Block1(c), Block2(c), Block3(c), Block4(c));
    Part1Fixes(c); Part2Fixes(c); Part3Fixes(c); Part4Fixes(c);
  }

  // Each block, encoded from the coefficients it decoded to, comes back except for its skipped bytes.

  lemma {:induction false} Part1Restores(c: CalibrationData, b: seq<byte>)
    requires |b| == CalibSize1
    ensures Block1(SetCalibPart1(c, b)) == b
  {
    BitsOfI16(b[2], b[3]); BitsOfI16(b[4], b[5]); BitsOfI16(b[8], b[9]);
  }

  lemma {:induction false} Part2Restores(c: CalibrationData, b: seq<byte>)
    requires |b| == CalibSize2
    ensures Block2(SetCalibPart2(c, b)) == b
  {
    BitsOfI16(b[0], b[1]); BitsOfI16(b[2], b[3]); BitsOfI16(b[4], b[5]); BitsOfI16(b[6], b[7]); BitsOfI16(b[8], b[9]);
  }

  lemma {:induction false} Part3Restores(c: CalibrationData, b: seq<byte>)
    requires |b| == CalibSize3
    ensures Block3(SetCalibPart3(c, b)) == b[4 := 0]
  {
    BitsOfI16(b[0], b[1]); BitsOfI16(b[2], b[3]);
  }

  lemma {:induction false} Part4Restores(c: CalibrationData, b: seq<byte>)
    requires |b| == CalibSize4
    ensures WellFormed(SetCalibPart4(c, b))
    ensures Block4(SetCalibPart4(c, b)) == b[7 := 0]
  {
    BitsOfI16(b[0], b[1]);
    var r := SetCalibPart4(c, b);
    assert (r.digH5 % 16) * 16 + r.digH4 % 16 == b[4];
  }

  /** Encoding the decoded blocks gives back every byte the decoder reads. */
  lemma {:induction false} EncodeDecode(c: CalibrationData, b1: seq<byte>, b2: seq<byte>, b3: seq<byte>, b4: seq<byte>)
    requires |b1| == CalibSize1 && |b2| == CalibSize2 && |b3| == CalibSize3 && |b4| == CalibSize4
    ensures WellFormed(Decode(c, b1, b2, b3, b4))
    ensures Block1(Decode(c, b1, b2, b3, b4)) == b1
    ensures Block2(Decode(c, b1, b2, b3, b4)) == b2
    ensures Block3(Decode(c, b1, b2, b3, b4)) == b3[4 := 0]
    ensures Block4(Decode(c, b1, b2, b3, b4)) == b4[7 := 0]
  {
    var c1 := SetCalibPart1(c, b1);
    var c2 := SetCalibPart2(c1, b2);
    var c3 := SetCalibPart3(c2, b3);
    Part1Restores(c, b1); Part2Restores(c1, b2); Part3Restores(c2, b3); Part4Restores(c3, b4);
    assert Block1(Decode(c, b1, b2, b3, b4)) == Block1(c1);
    assert Block2(Decode(c, b1, b2, b3, b4)) == Block2(c2);
    assert Block3(Decode(c, b1, b2, b3, b4)) == Block3(c3);
  }

  /** The byte at 0xA0 (offset 4 of the third block) has no effect on any coefficient. */
  lemma Part3SkipsA0(c: CalibrationData, data: seq<byte>, x: byte)
    requires |data| == CalibSize3
    ensures SetCalibPart3(c, data[4 := x]) == SetCalibPart3(c, data)
  {
  }

  /** The byte at 0xE8 (offset 7 of the fourth block) is never read. */
  lemma Part4SkipsE8(c: CalibrationData, data: seq<byte>, x: byte)
    requires |data| == CalibSize4
    ensures SetCalibPart4(c, data[7 := x]) == SetCalibPart4(c, data)
  {
  }

  /**
   * The shared byte at 0xE5 is split by nibble: changing its high nibble
   * leaves dig_H4 alone, changing its low nibble leaves dig_H5 alone.
   */
  lemma SharedNibbleSplit(c: CalibrationData, data: seq<byte>, x: byte)
    requires |data| == CalibSize4
    ensures x / 16 == data[4] / 16 ==> SetCalibPart4(c, data[4 := x]).digH5 == SetCalibPart4(c, data).digH5
    ensures x % 16 == data[4] % 16 ==> SetCalibPart4(c, data[4 := x]).digH4 == SetCalibPart4(c, data).digH4
  {
  }
}
