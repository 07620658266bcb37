/**
 * `quantize_color`: every channel is rounded to the nearest multiple of
 * `step = 255 / pixel_size` (integer division) and cast back to `u8`.
 *
 * The source computes `(v as f32 / step as f32).round() * step as f32`. For
 * 0 <= v <= 255 and 1 <= step <= 255 this equals the integer
 * `((2v + step) / (2 step)) * step`: the f32 quotient `v / step` is off by less
 * than 2^-16, far below the gap of at least 1/510 between `v / step` and any
 * half-integer it does not equal; a quotient that is exactly a half-integer is
 * represented exactly, and `round` sends it upwards; and the product is an
 * integer below 2^24, so it too is exact.
 * When `pixel_size > 255` the step is 0: the float quotient is NaN or +inf and
 * the product with 0.0 is NaN, which `as u8` turns into 0.
 */
module Quantization {
  import opened Colors

  /** `255 / pixel_size`; the source panics (integer division by zero) when `pixel_size == 0`. */
  function Step(pixelSize: U32): nat
    requires pixelSize >= 1
  {
    255 / pixelSize
  }

  /** `(v / step).round()` for non-negative `v` and positive `step`: halves round up. */
  function RoundedQuotient(v: nat, step: nat): nat
    requires step >= 1
  {
    (2 * v + step) / (2 * step)
  }

  /** The product `round(v / step) * step` before the cast to `u8`. */
  function Unclamped(v: Byte, step: nat): nat
    requires step >= 1
  {
    RoundedQuotient(v, step) * step
  }

  /** Multiplication by a non-negative factor is monotone. */
  lemma MulMonotone(x: int, y: int, d: int)
    requires x <= y && d >= 0
    ensures x * d <= y * d
  {
    var t := y - x;
    assert y * d == x * d + t * d;
  }

  /** Euclidean division facts for a positive divisor, stated without `%`. */
  lemma DivBounds(n: int, d: int)
    requires n >= 0 && d >= 1
    ensures (n / d) * d <= n < (n / d) * d + d
  {
    assert n == d * (n / d) + n % d;
  }

  /** A quotient and remainder with `0 <= r < d` are the ones `/` and `%` compute. */
  lemma DivUnique(n: int, d: int, q: int, r: int)
    requires n >= 0 && d >= 1 && 0 <= r < d && n == q * d + r
    ensures n / d == q && n % d == r
  {
    var q', r' := n / d, n % d;
    assert n == q' * d + r';
    if q' < q {
      assert (q' + 1) * d == q' * d + d;
      MulMonotone(q' + 1, q, d);
    } else if q' > q {
      assert (q + 1) * d == q * d + d;
      MulMonotone(q + 1, q', d);
    }
  }

  /** The quantisation closure of `quantize_color`, applied to one channel. */
  function QuantizeChannel(v: Byte, pixelSize: U32): (q: Byte)
    requires pixelSize >= 1
    // a zero step (pixel sizes above 255) sends every channel to 0
    ensures Step(pixelSize) == 0 ==> q == 0
    // otherwise the result is 255 or a multiple of the step
    ensures Step(pixelSize) >= 1 ==> q == 255 || q % Step(pixelSize) == 0
    // it lies within half a step of the input, and a tie rounds upwards
    ensures Step(pixelSize) >= 1 ==> 2 * (q - v) <= Step(pixelSize) && 2 * (v - q) < Step(pixelSize)
  {
    var step := 255 / pixelSize;
    if step == 0 then
      0
    else
      var k := RoundedQuotient(v, step);
      DivBounds(2 * v + step, 2 * step);
      assert k * (2 * step) == 2 * (k * step);
      DivUnique(k * step, step, k, 0);
      SaturatingU8(k * step)
  }

  /** `quantize_color`: each channel quantised, the result built by `Color32::from_rgb`. */
  function QuantizeColor(color: Rgb, pixelSize: U32): (c: Color32)
    requires pixelSize >= 1
    ensures c.a == 255
    ensures c.r == QuantizeChannel(color.r, pixelSize)
    ensures c.g == QuantizeChannel(color.g, pixelSize)
    ensures c.b == QuantizeChannel(color.b, pixelSize)
  {
    FromRgb(QuantizeChannel(color.r, pixelSize),
            QuantizeChannel(color.g, pixelSize),
            QuantizeChannel(color.b, pixelSize))
  }

  /** With `pixel_size = 1` (step 255) a channel becomes 255 exactly when it is at least 128, and 0 otherwise. */
  lemma QuantizeUnitPixelSize(v: Byte)
    ensures QuantizeChannel(v, 1) == (if v >= 128 then 255 else 0)
  {
    assert Step(1) == 255;
    if v >= 128 {
      assert 510 <= 2 * v + 255 < 1020;
      assert RoundedQuotient(v, 255) == 1;
    } else {
      assert 2 * v + 255 < 510;
      assert RoundedQuotient(v, 255) == 0;
    }
  }

  /** For the slider's pixel sizes, 255 is less than half a step above a multiple of the step. */
  lemma SliderStepRemainder(pixelSize: U32)
    requires 1 <= pixelSize <= 16
    ensures Step(pixelSize) >= 15
    ensures 2 * (255 % Step(pixelSize)) < Step(pixelSize)
  {
    if pixelSize <= 4 {
      if pixelSize == 1 { assert Step(1) == 255; }
      else if pixelSize == 2 { assert Step(2) == 127; }
      else if pixelSize == 3 { assert Step(3) == 85; }
      else { assert Step(4) == 63; }
    } else if pixelSize <= 8 {
      if pixelSize == 5 { assert Step(5) == 51; }
      else if pixelSize == 6 { assert Step(6) == 42; }
      else if pixelSize == 7 { assert Step(7) == 36; }
      else { assert Step(8) == 31; }
    } else if pixelSize <= 12 {
      if pixelSize == 9 { assert Step(9) == 28; }
      else if pixelSize == 10 { assert Step(10) == 25; }
      else if pixelSize == 11 { assert Step(11) == 23; }
      else { assert Step(12) == 21; }
    } else {
      if pixelSize == 13 { assert Step(13) == 19; }
      else if pixelSize == 14 { assert Step(14) == 18; }
      else if pixelSize == 15 { assert Step(15) == 17; }
      else { assert Step(16) == 15; }
    }
  }

  /** Integer division is monotone in the dividend. */
  lemma DivMonotone(a: nat, b: nat, d: nat)
    requires a <= b && d >= 1
    ensures a / d <= b / d
  {
    DivBounds(a, d);
    DivBounds(b, d);
    if a / d > b / d {
      assert (b / d + 1) * d == (b / d) * d + d;
      MulMonotone(b / d + 1, a / d, d);
    }
  }

  /** For the slider's pixel sizes the largest channel, 255, rounds down to the largest multiple of the step. */
  lemma LargestChannelRoundsDown(pixelSize: U32)
    requires 1 <= pixelSize <= 16
    ensures RoundedQuotient(255, Step(pixelSize)) == 255 / Step(pixelSize)
    ensures (255 / Step(pixelSize)) * Step(pixelSize) <= 255
  {
    var step := Step(pixelSize);
    SliderStepRemainder(pixelSize);
    var k := 255 / step;
    DivBounds(255, step);
    assert 255 == k * step + 255 % step;
    assert 2 * 255 + step == k * (2 * step) + (2 * (255 % step) + step);
    DivUnique(2 * 255 + step, 2 * step, k, 2 * (255 % step) + step);
  }

  /**
   * For pixel sizes 1..16 (the slider's range) the cast never saturates: the
   * quantised channel is exactly `round(v / step) * step`, a multiple of the
   * step in [0, 255].
   */
  lemma QuantizeInSliderRange(v: Byte, pixelSize: U32)
    requires 1 <= pixelSize <= 16
    ensures Unclamped(v, Step(pixelSize)) <= 255
    ensures QuantizeChannel(v, pixelSize) == Unclamped(v, Step(pixelSize))
    ensures QuantizeChannel(v, pixelSize) % Step(pixelSize) == 0
  {
    var step := Step(pixelSize);
    var k := 255 / step;
    LargestChannelRoundsDown(pixelSize);
    DivMonotone(2 * v + step, 2 * 255 + step, 2 * step);
    var rq := RoundedQuotient(v, step);
    MulMonotone(rq, k, step);
    DivUnique(rq * step, step, rq, 0);
  }
}
