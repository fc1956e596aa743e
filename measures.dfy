/**
 * The raw ADC block at 0xF7..0xFE (`set_all_measures_8`): eight big-endian
 * bytes give a 20-bit pressure count, a 20-bit temperature count and a
 * 16-bit humidity count.  The low nibble of the third byte of each 20-bit
 * group is not part of the count.
 */
module RawMeasures {
  import opened Registers

  datatype RawAdc = RawAdc(adcP: int, adcT: int, adcH: int)

  /** `b0 << 12 | b1 << 4 | b2 >> 4`: a 20-bit count from three bytes. */
  function Adc20(b0: byte, b1: byte, b2: byte): (r: int)
    ensures 0 <= r < 0x10_0000
    ensures r / 0x1000 == b0 && (r / 16) % 0x100 == b1 && r % 16 == b2 / 16
  {
    Adc20Digits(b0, b1, b2);
    b0 * 0x1000 + b1 * 16 + b2 / 16
  }

  lemma {:induction false} Adc20Digits(b0: byte, b1: byte, b2: byte)
    ensures var r := b0 * 0x1000 + b1 * 16 + b2 / 16;
            0 <= r < 0x10_0000 && r / 0x1000 == b0 && (r / 16) % 0x100 == b1 && r % 16 == b2 / 16
  {
    var hi, lo := b0 * 0x100 + b1, b2 / 16;
    var r := b0 * 0x1000 + b1 * 16 + b2 / 16;
    assert r == 16 * hi + lo && 0 <= lo < 16;
    assert r / 16 == hi && r % 16 == lo;
    assert hi / 0x100 == b0 && hi % 0x100 == b1;
    assert r == 0x1000 * b0 + (b1 * 16 + lo) && 0 <= b1 * 16 + lo < 0x1000;
  }

  /** `set_all_measures_8`. */
  function Unpack(data: seq<byte>): (r: RawAdc)
    requires |data| == MeasuresSize
    ensures 0 <= r.adcP < 0x10_0000 && 0 <= r.adcT < 0x10_0000 && 0 <= r.adcH < 0x1_0000
    ensures r.adcP == data[0] as int * 4096 + data[1] as int * 16 + data[2] / 16
    ensures r.adcT == data[3] as int * 4096 + data[4] as int * 16 + data[5] / 16
    ensures r.adcH == data[6] as int * 256 + data[7]
  {
    RawAdc(Adc20(data[0], data[1], data[2]), Adc20(data[3], data[4], data[5]), data[6] as int * 0x100 + data[7])
  }

  /** The raw counts the block can carry. */
  predicate InRange(r: RawAdc) {
    0 <= r.adcP < 0x10_0000 && 0 <= r.adcT < 0x10_0000 && 0 <= r.adcH < 0x1_0000
  }

  /** The block that carries the given counts, with the unused nibbles zero. */
  function Pack(r: RawAdc): (data: seq<byte>)
    requires InRange(r)
    ensures |data| == MeasuresSize
  {
    [r.adcP / 0x1000, (r.adcP / 16) % 0x100, (r.adcP % 16) * 16,
     r.adcT / 0x1000, (r.adcT / 16) % 0x100, (r.adcT % 16) * 16,
     r.adcH / 0x100, r.adcH % 0x100]
  }

  /** Unpacking the packed counts gives them back. */
  lemma {:induction false} UnpackPack(r: RawAdc)
    requires InRange(r)
    ensures Unpack(Pack(r)) == r
  {
    Adc20Split(r.adcP);
    Adc20Split(r.adcT);
  }

  lemma {:induction false} Adc20Split(v: int)
    requires 0 <= v < 0x10_0000
    ensures Adc20(v / 0x1000, (v / 16) % 0x100, (v % 16) * 16) == v
  {
    var hi, rest := v / 0x1000, v % 0x1000;
    assert v == hi * 0x1000 + rest;
    assert (v / 16) % 0x100 == rest / 16;
    assert ((v % 16) * 16) / 16 == v % 16 == rest % 16;
  }

  /** Packing the unpacked counts gives back the block with its two unused nibbles cleared. */
  lemma {:induction false} PackUnpack(data: seq<byte>)
    requires |data| == MeasuresSize
    ensures InRange(Unpack(data))
    ensures Pack(Unpack(data)) == data[2 := data[2] / 16 * 16][5 := data[5] / 16 * 16]
  {
  }

  /** The low nibbles of the bytes at 0xF9 and 0xFC have no effect on the counts. */
  lemma {:induction false} LowNibblesIgnored(data: seq<byte>, x2: byte, x5: byte)
    requires |data| == MeasuresSize
    requires x2 / 16 == data[2] / 16 && x5 / 16 == data[5] / 16
    ensures Unpack(data[2 := x2][5 := x5]) == Unpack(data)
  {
  }
}
