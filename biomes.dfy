/**
 * `get_terrain_color`: a normalised height picks the first biome whose upper
 * bound exceeds it (strict less-than, bounds ascending), and the biome's fixed
 * colour is passed through `quantize_color` with a pixel size of 1.
 */
module Biomes {
  import opened Colors
  import opened Quantization

  datatype Biome = DeepWater | Water | Sand | Grass | Mountain | Snow

  /** The guard chain of `get_terrain_color`. */
  function Classify(h: real): Biome
  {
    if h < 0.3 then DeepWater
    else if h < 0.4 then Water
    else if h < 0.5 then Sand
    else if h < 0.7 then Grass
    else if h < 0.8 then Mountain
    else Snow
  }

  /** The colour each arm of the guard chain yields, before quantisation. */
  function BaseColor(b: Biome): Rgb
  {
    match b
    case DeepWater => Rgb(0, 0, 255)
    case Water => Rgb(65, 105, 225)
    case Sand => Rgb(210, 180, 140)
    case Grass => Rgb(34, 139, 34)
    case Mountain => Rgb(139, 69, 19)
    case Snow => Rgb(255, 255, 255)
  }

  /** `get_terrain_color`: classify, then quantise with a fixed pixel size of 1. */
  function TerrainColor(h: real): Color32
  {
    QuantizeColor(BaseColor(Classify(h)), 1)
  }

  /** Position of a biome in the table, lowest band first. */
  function BandIndex(b: Biome): nat
  {
    match b
    case DeepWater => 0
    case Water => 1
    case Sand => 2
    case Grass => 3
    case Mountain => 4
    case Snow => 5
  }

  /** The exclusive upper bounds of the first five bands, in table order. */
  const Bounds: seq<real> := [0.3, 0.4, 0.5, 0.7, 0.8]

  /**
   * Reference reading of a threshold table: the index of the first bound that
   * exceeds `h`, or `|bounds|` (the catch-all band) when none does.
   */
  function FirstBandAbove(bounds: seq<real>, h: real): (i: nat)
    ensures i <= |bounds|
    ensures forall j :: 0 <= j < i ==> bounds[j] <= h
    ensures i < |bounds| ==> h < bounds[i]
  {
    if bounds == [] then 0
    else if h < bounds[0] then 0
    else 1 + FirstBandAbove(bounds[1..], h)
  }

  /** The guard chain selects exactly the first band of `Bounds` whose bound exceeds the height. */
  lemma ClassifyIsFirstBand(h: real)
    ensures BandIndex(Classify(h)) == FirstBandAbove(Bounds, h)
  {
    var i := FirstBandAbove(Bounds, h);
    if i < 5 {
      assert h < Bounds[i];
    }
    if i > 0 { assert Bounds[i - 1] <= h; }
  }

  /** Each biome covers one right-open interval; heights below 0 are deep water and above 1 snow. */
  lemma ClassifyBands(h: real)
    ensures Classify(h) == DeepWater <==> h < 0.3
    ensures Classify(h) == Water <==> 0.3 <= h < 0.4
    ensures Classify(h) == Sand <==> 0.4 <= h < 0.5
    ensures Classify(h) == Grass <==> 0.5 <= h < 0.7
    ensures Classify(h) == Mountain <==> 0.7 <= h < 0.8
    ensures Classify(h) == Snow <==> 0.8 <= h
    ensures h < 0.0 ==> Classify(h) == DeepWater
    ensures h > 1.0 ==> Classify(h) == Snow
  {
  }

  /** A higher height never lands in a lower band. */
  lemma ClassifyMonotone(h1: real, h2: real)
    requires h1 <= h2
    ensures BandIndex(Classify(h1)) <= BandIndex(Classify(h2))
  {
    ClassifyIsFirstBand(h1);
    ClassifyIsFirstBand(h2);
  }

  /** The channels of the six table colours, each sent to 0 or 255 by quantisation at pixel size 1. */
  lemma QuantizedBaseColor(b: Biome)
    ensures QuantizeColor(BaseColor(b), 1) ==
      match b
      case DeepWater => Color32(0, 0, 255, 255)
      case Water => Color32(0, 0, 255, 255)
      case Sand => Color32(255, 255, 255, 255)
      case Grass => Color32(0, 255, 0, 255)
      case Mountain => Color32(255, 0, 0, 255)
      case Snow => Color32(255, 255, 255, 255)
  {
    var c := BaseColor(b);
    QuantizeUnitPixelSize(c.r);
    QuantizeUnitPixelSize(c.g);
    QuantizeUnitPixelSize(c.b);
  }

  /** The four colours `get_terrain_color` can return. */
  predicate InTerrainPalette(c: Color32)
  {
    c == Color32(0, 0, 255, 255) || c == Color32(255, 255, 255, 255) ||
    c == Color32(0, 255, 0, 255) || c == Color32(255, 0, 0, 255)
  }

  /**
   * Every terrain colour is opaque, has channels 0 or 255 only, and is one of
   * four colours: water shares deep water's blue and sand shares snow's white.
   */
  lemma TerrainColorQuantized(h: real)
    ensures TerrainColor(h).a == 255
    ensures InTerrainPalette(TerrainColor(h))
    ensures h < 0.4 ==> TerrainColor(h) == Color32(0, 0, 255, 255)
    ensures 0.4 <= h < 0.5 || 0.8 <= h ==> TerrainColor(h) == Color32(255, 255, 255, 255)
    ensures 0.5 <= h < 0.7 ==> TerrainColor(h) == Color32(0, 255, 0, 255)
    ensures 0.7 <= h < 0.8 ==> TerrainColor(h) == Color32(255, 0, 0, 255)
  {
    QuantizedBaseColor(Classify(h));
  }
}
