/** Raw samples: the 16-bit two's-complement value assembled from an axis's
    high and low output registers, and its conversion to gravities. */
module Samples {
  import opened Lis3dhMap

  const INT16_MIN: int := -0x8000
  const INT16_MAX: int := 0x7FFF

  predicate IsInt16(x: int) { INT16_MIN <= x <= INT16_MAX }

  /** Conversion of an `int` to `int16_t`: the value congruent modulo 2^16
      that lies in the signed range (modular, as C++20 prescribes and as the
      target compiler does for earlier standards). */
  function ToInt16(x: int): (r: int)
    ensures IsInt16(r) && (x - r) % 0x10000 == 0
    ensures IsInt16(x) ==> r == x
  {
    var m := x % 0x10000;
    if m <= INT16_MAX then m else m - 0x10000
  }

  /** `(int16_t)((uint16_t)highByte << 8) + ((uint16_t)lowByte)`, stored in an
      `int16_t`: the cast binds to the shifted high byte only, the low byte is
      added in `int`, and the sum is converted again on assignment. */
  function RawSample(high: byte, low: byte): (r: int)
    ensures IsInt16(r)
  {
    ToInt16(ToInt16(high * 0x100) + low)
  }

  /** The assembled value is the two's-complement reading of `high:low`. */
  lemma RawSampleValue(high: byte, low: byte)
    ensures IsInt16(RawSample(high, low))
    ensures RawSample(high, low) == high * 0x100 + low - (if high >= 0x80 then 0x10000 else 0)
    ensures (RawSample(high, low) - (high * 0x100 + low)) % 0x10000 == 0
  {
    var h := ToInt16(high * 0x100);
    assert h == high * 0x100 - (if high >= 0x80 then 0x10000 else 0);
    assert IsInt16(h + low);
  }

  /** How a raw sample is laid out in the two output registers: (high, low). */
  function SampleBytes(raw: int): (bytes: (byte, byte))
    requires IsInt16(raw)
  {
    var u := raw % 0x10000;
    (u / 0x100, u % 0x100)
  }

  /** Assembly inverts the register layout... */
  lemma SampleRoundTrip(raw: int)
    requires IsInt16(raw)
    ensures RawSample(SampleBytes(raw).0, SampleBytes(raw).1) == raw
  {
    var (high, low) := SampleBytes(raw);
    RawSampleValue(high, low);
  }

  /** ...and the layout inverts assembly, so every register pair is one sample. */
  lemma BytesRoundTrip(high: byte, low: byte)
    ensures SampleBytes(RawSample(high, low)) == (high, low)
  {
    RawSampleValue(high, low);
  }

  /** `convertReadingToAccel` over the reals: the reading over 32767, times the
      hard-coded full scale of 2 g. */
  function ReadingToAccel(reading: int): (g: real)
    ensures g < 0.0 <==> reading < 0
    ensures g == 0.0 <==> reading == 0
  {
    reading as real / 32767.0 * 2.0
  }

  /** Zero reads as 0 g, the largest reading as exactly 2 g, and the most
      negative one as slightly more than 2 g in magnitude, because the scale
      divides by 32767 on both sides. */
  lemma ConversionScale()
    ensures ReadingToAccel(0) == 0.0
    ensures ReadingToAccel(INT16_MAX) == 2.0
    ensures ReadingToAccel(INT16_MIN) == -2.0 - 2.0 / 32767.0
    ensures ReadingToAccel(INT16_MIN) < -2.0
  {
  }

  /** Every other reading lies within ±2 g, and the conversion is monotone. */
  lemma ConversionBounded(reading: int, other: int)
    requires INT16_MIN < reading <= INT16_MAX
    ensures -2.0 <= ReadingToAccel(reading) <= 2.0
    ensures reading <= other ==> ReadingToAccel(reading) <= ReadingToAccel(other)
  {
  }
}
