/**
 * `TerrainApp::regenerate_terrain`: every pixel of a `width` x `height` grid
 * is coloured from its octave-sum height, the pixels are collected row by row
 * (`flat_map` over y, then x), flattened to RGBA bytes and stored as the app's
 * terrain image.
 */
module Terrain {
  import opened Colors
  import opened Quantization
  import opened Biomes
  import opened Fractal

  /** `TerrainConfig`: the generator's parameters, as the sliders leave them. */
  datatype TerrainConfig = TerrainConfig(
    width: U32,
    height: U32,
    scale: real,
    octaves: nat,
    persistence: real,
    lacunarity: real,
    pixelSize: U32)

  /** The configuration `TerrainApp::new` starts from. */
  const DefaultConfig: TerrainConfig :=
    TerrainConfig(512, 512, 50.0, 6, 0.5, 2.0, 1)

  /**
   * The app's terrain image: its size and the RGBA bytes handed to
   * `ColorImage::from_rgba_unmultiplied`, four per pixel in row-major order.
   */
  datatype ColorImage = ColorImage(width: nat, height: nat, rgba: seq<Byte>)

  /** The normalised height of pixel (x, y): its centred coordinates, the octave sum, then `(v + 1) / 2`. */
  function HeightAt(field: NoiseField, cfg: TerrainConfig, x: nat, y: nat): real
    requires x < cfg.width && y < cfg.height
  {
    var nx := CentredCoord(x, cfg.width);
    var ny := CentredCoord(y, cfg.height);
    Normalise(FractalSum(field, nx, ny, cfg.scale, cfg.persistence, cfg.lacunarity, cfg.octaves))
  }

  /** The colour of pixel (x, y): `get_terrain_color` of its height. */
  function PixelAt(field: NoiseField, cfg: TerrainConfig, x: nat, y: nat): Color32
    requires x < cfg.width && y < cfg.height
  {
    TerrainColor(HeightAt(field, cfg, x, y))
  }

  /** Row `y` of the image: `(0..width).map(|x| ...)`. */
  function Row(field: NoiseField, cfg: TerrainConfig, y: nat): seq<Color32>
    requires y < cfg.height
  {
    seq(cfg.width, x requires 0 <= x < cfg.width => PixelAt(field, cfg, x, y))
  }

  /** The first `rows` rows, concatenated: the `flat_map` over `0..rows`. */
  function Grid(field: NoiseField, cfg: TerrainConfig, rows: nat): (g: seq<Color32>)
    requires rows <= cfg.height
    ensures |g| == rows * cfg.width
  {
    if rows == 0 then []
    else Grid(field, cfg, rows - 1) + Row(field, cfg, rows - 1)
  }

  /** The collected `pixels` vector of `regenerate_terrain`. */
  function Pixels(field: NoiseField, cfg: TerrainConfig): seq<Color32>
  {
    Grid(field, cfg, cfg.height)
  }

  /** `flat_map(|c| c.to_array())`: each pixel's four channel bytes, in order. */
  function FlattenRgba(pixels: seq<Color32>): (bytes: seq<Byte>)
    ensures |bytes| == 4 * |pixels|
  {
    if pixels == [] then []
    else ToArray(pixels[0]) + FlattenRgba(pixels[1..])
  }

  /** The image `regenerate_terrain` stores for a noise field and a configuration. */
  function Synthesize(field: NoiseField, cfg: TerrainConfig): ColorImage
  {
    ColorImage(cfg.width, cfg.height, FlattenRgba(Pixels(field, cfg)))
  }

  /** Row-major position arithmetic: (x, y) sits at `y * width + x`, inside the grid. */
  lemma RowMajorIndex(x: nat, y: nat, width: nat, rows: nat)
    requires x < width && y < rows
    ensures y * width + x < rows * width
  {
    MulMonotone(y + 1, rows, width);
    assert (y + 1) * width == y * width + width;
  }

  /** In the first `rows` rows, the colour of pixel (x, y) sits at index `y * width + x`. */
  lemma {:induction false} GridAt(field: NoiseField, cfg: TerrainConfig, rows: nat, x: nat, y: nat)
    requires rows <= cfg.height && x < cfg.width && y < rows
    ensures y * cfg.width + x < |Grid(field, cfg, rows)|
    ensures Grid(field, cfg, rows)[y * cfg.width + x] == PixelAt(field, cfg, x, y)
  {
    RowMajorIndex(x, y, cfg.width, rows);
    var prefix := Grid(field, cfg, rows - 1);
    assert Grid(field, cfg, rows) == prefix + Row(field, cfg, rows - 1);
    if y < rows - 1 {
      GridAt(field, cfg, rows - 1, x, y);
    } else {
      assert |prefix| == y * cfg.width;
    }
  }

  /**
   * The pixel vector has exactly width * height entries and holds the colour
   * of (x, y) at index `y * width + x`.
   */
  lemma PixelsRowMajor(field: NoiseField, cfg: TerrainConfig, x: nat, y: nat)
    requires x < cfg.width && y < cfg.height
    ensures |Pixels(field, cfg)| == cfg.width * cfg.height
    ensures y * cfg.width + x < |Pixels(field, cfg)|
    ensures Pixels(field, cfg)[y * cfg.width + x] == PixelAt(field, cfg, x, y)
  {
    GridAt(field, cfg, cfg.height, x, y);
  }

  /** Byte `c` of pixel `i` in the flattened buffer is channel `c` of that pixel. */
  lemma {:induction false} FlattenRgbaAt(pixels: seq<Color32>, i: nat, c: nat)
    requires i < |pixels| && c < 4
    ensures 4 * i + c < |FlattenRgba(pixels)|
    ensures FlattenRgba(pixels)[4 * i + c] == ToArray(pixels[i])[c]
  {
    if i > 0 {
      FlattenRgbaAt(pixels[1..], i - 1, c);
    }
  }

  /**
   * The stored image has `4 * width * height` bytes, and channel `c` of pixel
   * (x, y) is the byte at `4 * (y * width + x) + c`.
   */
  lemma ImageLayout(field: NoiseField, cfg: TerrainConfig, x: nat, y: nat, c: nat)
    requires x < cfg.width && y < cfg.height && c < 4
    ensures |Synthesize(field, cfg).rgba| == 4 * (cfg.width * cfg.height)
    ensures 4 * (y * cfg.width + x) + c < |Synthesize(field, cfg).rgba|
    ensures Synthesize(field, cfg).rgba[4 * (y * cfg.width + x) + c] == ToArray(PixelAt(field, cfg, x, y))[c]
  {
    var pixels := Pixels(field, cfg);
    PixelsRowMajor(field, cfg, x, y);
    FlattenRgbaAt(pixels, y * cfg.width + x, c);
  }

  /**
   * Every pixel of the image is fully opaque and one of the four colours that
   * survive quantisation at pixel size 1, whatever the noise field.
   */
  lemma ImageOpaqueInPalette(field: NoiseField, cfg: TerrainConfig, x: nat, y: nat)
    requires x < cfg.width && y < cfg.height
    ensures 4 * (y * cfg.width + x) + 3 < |Synthesize(field, cfg).rgba|
    ensures Synthesize(field, cfg).rgba[4 * (y * cfg.width + x) + 3] == 255
    ensures InTerrainPalette(PixelAt(field, cfg, x, y))
  {
    ImageLayout(field, cfg, x, y, 3);
    TerrainColorQuantized(HeightAt(field, cfg, x, y));
  }

  /** A grid with no columns or no rows yields an empty buffer. */
  lemma {:induction false} EmptyGrid(field: NoiseField, cfg: TerrainConfig)
    requires cfg.width == 0 || cfg.height == 0
    ensures Synthesize(field, cfg).rgba == []
  {
    assert |Pixels(field, cfg)| == cfg.height * cfg.width;
  }

  /**
   * The pixel loop of `regenerate_terrain`: rows in order, columns in order,
   * each pixel's height computed by the octave loop and coloured.
   */
  method RenderPixels(field: NoiseField, cfg: TerrainConfig) returns (pixels: seq<Color32>)
    ensures pixels == Pixels(field, cfg)
  {
    pixels := [];
    var y := 0;
    while y < cfg.height
      invariant y <= cfg.height
      invariant pixels == Grid(field, cfg, y)
    {
      var x := 0;
      while x < cfg.width
        invariant x <= cfg.width
        invariant pixels == Grid(field, cfg, y) + Row(field, cfg, y)[..x]
      {
        var nx := CentredCoord(x, cfg.width);
        var ny := CentredCoord(y, cfg.height);
        var noiseValue := OctaveNoise(field, nx, ny, cfg.scale, cfg.octaves, cfg.persistence, cfg.lacunarity);
        noiseValue := Normalise(noiseValue);
        var color := TerrainColor(noiseValue);
        assert Row(field, cfg, y)[..x + 1] == Row(field, cfg, y)[..x] + [color];
        pixels := pixels + [color];
        x := x + 1;
      }
      assert Row(field, cfg, y)[..x] == Row(field, cfg, y);
      y := y + 1;
    }
  }

  /** `TerrainApp`: the generator's state; the texture handle belongs to the UI and is not part of the model. */
  class TerrainApp {
    var config: TerrainConfig
    var terrain: ColorImage
    var seed: U32

    /**
     * `TerrainApp::new`, with the random seed and the Perlin constructor
     * (`Perlin::new`) as parameters: the default configuration, then a first
     * regeneration.
     */
    constructor (seed: U32, perlin: U32 -> NoiseField)
      ensures this.seed == seed && config == DefaultConfig
      ensures terrain == Synthesize(perlin(seed), DefaultConfig)
    {
      this.seed := seed;
      config := DefaultConfig;
      terrain := ColorImage(256, 256, FlattenRgba(seq(256 * 256, _ => Color32(0, 0, 0, 255))));
      new;
      RegenerateTerrain(perlin);
    }

    /**
     * `regenerate_terrain`: the noise field of the current seed, the pixel
     * loop, the byte flattening; only the terrain image changes.
     */
    method RegenerateTerrain(perlin: U32 -> NoiseField)
      modifies this`terrain
      ensures terrain == Synthesize(perlin(seed), config)
    {
      var field := perlin(seed);
      var pixels := RenderPixels(field, config);
      terrain := ColorImage(config.width, config.height, FlattenRgba(pixels));
    }
  }
}
