/**
 * The per-pixel octave accumulation of `regenerate_terrain`: pixel
 * coordinates centred on zero, a sum of noise layers whose amplitude shrinks
 * by `persistence` and whose frequency grows by `lacunarity`, and the
 * normalisation `(v + 1) / 2`. f64 arithmetic is modelled over `real`.
 */
module Fractal {

  /**
   * A seeded Perlin noise field, `perlin.get([x, y])`: deterministic, and
   * otherwise left uninterpreted.
   */
  type NoiseField = (real, real) -> real

  /** `x` raised to the `k`-th power. */
  function Pow(x: real, k: nat): real
  {
    if k == 0 then 1.0 else x * Pow(x, k - 1)
  }

  /** `x as f64 / n as f64 - 0.5`: a pixel index mapped into the centred unit interval. */
  function CentredCoord(i: nat, n: nat): (c: real)
    requires i < n
    ensures -0.5 <= c < 0.5
  {
    var t := i as real / n as real;
    assert t * n as real == i as real;
    t - 0.5
  }

  /** Where octave `j` samples along one axis: `n * frequency * scale` with `frequency = lacunarity^j`. */
  function SampleCoord(n: real, lacunarity: real, scale: real, j: nat): real
  {
    n * Pow(lacunarity, j) * scale
  }

  /** The contribution of octave `j`: the noise at its sample point, weighted by `amplitude = persistence^j`. */
  function Layer(field: NoiseField, nx: real, ny: real, scale: real,
                 persistence: real, lacunarity: real, j: nat): real
  {
    field(SampleCoord(nx, lacunarity, scale, j), SampleCoord(ny, lacunarity, scale, j))
    * Pow(persistence, j)
  }

  /** The sum of the first `k` octave layers at the centred point (nx, ny). */
  function FractalSum(field: NoiseField, nx: real, ny: real, scale: real,
                      persistence: real, lacunarity: real, k: nat): real
  {
    if k == 0 then 0.0
    else
      FractalSum(field, nx, ny, scale, persistence, lacunarity, k - 1)
      + Layer(field, nx, ny, scale, persistence, lacunarity, k - 1)
  }

  /** `(noise_value + 1.0) / 2.0`, applied without clamping. */
  function Normalise(v: real): real
  {
    (v + 1.0) / 2.0
  }

  /**
   * The octave loop: `octaves` rounds of sampling and accumulating, each
   * followed by `amplitude *= persistence` and `frequency *= lacunarity`.
   */
  method OctaveNoise(field: NoiseField, nx: real, ny: real, scale: real, octaves: nat,
                     persistence: real, lacunarity: real) returns (noiseValue: real)
    ensures noiseValue == FractalSum(field, nx, ny, scale, persistence, lacunarity, octaves)
  {
    noiseValue := 0.0;
    var amplitude := 1.0;
    var frequency := 1.0;
    for k := 0 to octaves
      invariant amplitude == Pow(persistence, k)
      invariant frequency == Pow(lacunarity, k)
      invariant noiseValue == FractalSum(field, nx, ny, scale, persistence, lacunarity, k)
    {
      var sampleX := nx * frequency * scale;
      var sampleY := ny * frequency * scale;
      assert sampleX == SampleCoord(nx, lacunarity, scale, k);
      assert sampleY == SampleCoord(ny, lacunarity, scale, k);
      noiseValue := noiseValue + field(sampleX, sampleY) * amplitude;
      amplitude := amplitude * persistence;
      frequency := frequency * lacunarity;
    }
  }

  /** The largest possible magnitude of a `k`-layer sum of noise bounded by 1: the sum of `persistence^j` for j < k. */
  function AmplitudeSum(persistence: real, k: nat): real
  {
    if k == 0 then 0.0 else AmplitudeSum(persistence, k - 1) + Pow(persistence, k - 1)
  }

  /** Powers of a non-negative base are non-negative, and positive for a positive base. */
  lemma {:induction false} PowNonNegative(x: real, k: nat)
    requires x >= 0.0
    ensures Pow(x, k) >= 0.0
    ensures x > 0.0 ==> Pow(x, k) > 0.0
  {
    if k > 0 {
      PowNonNegative(x, k - 1);
    }
  }

  /**
   * Octave weights never grow when `persistence` is in [0, 1] (the slider's
   * range), and strictly shrink when it is in (0, 1).
   */
  lemma AmplitudeDecay(persistence: real, k: nat)
    requires 0.0 <= persistence <= 1.0
    ensures Pow(persistence, k + 1) <= Pow(persistence, k)
    ensures 0.0 < persistence < 1.0 ==> Pow(persistence, k + 1) < Pow(persistence, k)
  {
    var a := Pow(persistence, k);
    PowNonNegative(persistence, k);
    assert Pow(persistence, k + 1) == persistence * a;
    MulNonNegative(1.0 - persistence, a);
    assert a - persistence * a == (1.0 - persistence) * a;
    if 0.0 < persistence < 1.0 {
      MulPositive(1.0 - persistence, a);
    }
  }

  /** A product of non-negative reals is non-negative. */
  lemma MulNonNegative(x: real, y: real)
    requires x >= 0.0 && y >= 0.0
    ensures x * y >= 0.0
  {
  }

  /** A product of positive reals is positive. */
  lemma MulPositive(x: real, y: real)
    requires x > 0.0 && y > 0.0
    ensures x * y > 0.0
  {
  }

  /** A product with a factor in [-1, 1] is bounded by the other, non-negative factor. */
  lemma ScaledBound(n: real, a: real)
    requires -1.0 <= n <= 1.0 && a >= 0.0
    ensures -a <= n * a <= a
  {
    assert a - n * a == (1.0 - n) * a;
    MulNonNegative(1.0 - n, a);
    assert a + n * a == (1.0 + n) * a;
    MulNonNegative(1.0 + n, a);
  }

  /** Octave `j` contributes at most `persistence^j` in magnitude when the noise is bounded by 1. */
  lemma LayerBound(field: NoiseField, nx: real, ny: real, scale: real,
                   persistence: real, lacunarity: real, j: nat)
    requires forall x, y :: -1.0 <= field(x, y) <= 1.0
    requires persistence >= 0.0
    ensures -Pow(persistence, j) <= Layer(field, nx, ny, scale, persistence, lacunarity, j) <= Pow(persistence, j)
  {
    var x, y := SampleCoord(nx, lacunarity, scale, j), SampleCoord(ny, lacunarity, scale, j);
    var s, a := field(x, y), Pow(persistence, j);
    assert -1.0 <= s <= 1.0;
    PowNonNegative(persistence, j);
    ScaledBound(s, a);
  }

  /**
   * When every noise sample lies in [-1, 1] and `persistence >= 0`, a `k`-layer
   * sum lies within the sum of the octave weights.
   */
  lemma {:induction false} FractalSumBound(field: NoiseField, nx: real, ny: real, scale: real,
                                           persistence: real, lacunarity: real, k: nat)
    requires forall x, y :: -1.0 <= field(x, y) <= 1.0
    requires persistence >= 0.0
    ensures -AmplitudeSum(persistence, k) <= FractalSum(field, nx, ny, scale, persistence, lacunarity, k)
    ensures FractalSum(field, nx, ny, scale, persistence, lacunarity, k) <= AmplitudeSum(persistence, k)
  {
    if k > 0 {
      FractalSumBound(field, nx, ny, scale, persistence, lacunarity, k - 1);
      LayerBound(field, nx, ny, scale, persistence, lacunarity, k - 1);
    }
  }

  /**
   * With a single octave and noise in [-1, 1] the normalised height lies in
   * [0, 1]; with more octaves it may leave that interval and is not clamped.
   */
  lemma SingleOctaveInUnitInterval(field: NoiseField, nx: real, ny: real, scale: real,
                                   persistence: real, lacunarity: real)
    requires forall x, y :: -1.0 <= field(x, y) <= 1.0
    requires persistence >= 0.0
    ensures 0.0 <= Normalise(FractalSum(field, nx, ny, scale, persistence, lacunarity, 1)) <= 1.0
  {
    FractalSumBound(field, nx, ny, scale, persistence, lacunarity, 1);
  }
}
