# Terrain generator: height-to-colour pipeline

A Dafny model of the core of `terrain_generator`, a small egui application
that paints a procedurally generated height map. The model covers what
happens when the terrain is regenerated:

1. every pixel (x, y) of a `width` x `height` grid gets coordinates centred
   on zero, `x / width - 0.5` and `y / height - 0.5`;
2. `octaves` layers of Perlin noise are summed at those coordinates; after
   each layer the amplitude is multiplied by `persistence` and the frequency
   by `lacunarity`; the sum is normalised with `(v + 1) / 2`, without clamping;
3. the height selects one of six biome colours (deep water, water, sand,
   grass, mountain, snow) through a chain of strict less-than thresholds
   0.3, 0.4, 0.5, 0.7, 0.8;
4. the colour goes through `quantize_color` with a pixel size of 1, which
   rounds each channel to a multiple of `255 / pixel_size`;
5. the pixels are collected row by row, each as an opaque `Color32`, and
   flattened to RGBA bytes that become the app's terrain image.

Modules:

- `Colors` (`colors.dfy`): `u8`/`u32` ranges, the `[u8; 3]` table colour and `Color32`.
- `Quantization` (`quantization.dfy`): `quantize_color`, exactly, over integers.
- `Biomes` (`biomes.dfy`): `get_terrain_color`, with a reference "first band
  above" reading of the threshold table.
- `Fractal` (`fractal.dfy`): centred coordinates, the octave loop (a method
  with loop invariants) and the octave sum it computes.
- `Terrain` (`terrain.dfy`): the configuration, the pixel loops, the byte
  layout and the `TerrainApp` class whose `terrain` field is overwritten.

The Perlin noise is a value of type `NoiseField = (real, real) -> real`: a
deterministic function the model knows nothing else about. `Perlin::new(seed)`
is the parameter `perlin: U32 -> NoiseField` of the app's methods. f64 and f32
arithmetic of the octave sum is modelled over `real`. Quantisation is the
exception: for a channel `v` in [0, 255] and a step in [1, 255] the f32
expression `(v / step).round() * step` rounds to the same value as exact
arithmetic would (the quotient's error is far smaller than its distance from any
half-integer it does not equal, and the product is a small integer), so it is
modelled as the integer `((2v + step) / (2 step)) * step`, with the saturating `as u8` cast
written out. A pixel size above 255 gives a step of 0. The float quotient is
then NaN or infinite and its product with 0 is NaN, which `as u8` turns into 0,
so the model returns 0 there. A pixel size of 0 makes the source panic (integer
division by zero) rather than returning an error, so `QuantizeChannel` requires a pixel size of at least 1.

Because `get_terrain_color` always quantises with pixel size 1, every channel
becomes 0 or 255 (255 exactly when it is at least 128). The six table colours
therefore collapse to four: water is drawn like deep water (0, 0, 255), sand
like snow (255, 255, 255), grass is (0, 255, 0) and mountain (255, 0, 0). The
configured `pixel_size` is never read by the pipeline.

## Model

| member | source | states |
|---|---|---|
| `Quantization.QuantizeChannel` | src/main.rs:168-171 | a zero step (pixel size above 255) gives 0; otherwise the result is 255 or a multiple of the step, lies within half a step of the input, and a tie rounds upwards |
| `Quantization.QuantizeColor` | src/main.rs:167-178 | each channel is quantised independently and the colour is fully opaque |
| `Quantization.QuantizeUnitPixelSize` | src/main.rs:168-171 | with pixel size 1 a channel becomes 255 exactly when it is at least 128, and 0 otherwise |
| `Quantization.QuantizeInSliderRange` | src/main.rs:168-171 | for pixel sizes 1..16 (the slider range) the product never exceeds 255, so no saturation happens, and the result is a multiple of `255 / pixel_size` |
| `Biomes.FirstBandAbove` | src/main.rs:156-163 | reference reading of a threshold table: every earlier bound is at most the height and the selected bound, if any, exceeds it |
| `Biomes.ClassifyIsFirstBand` | src/main.rs:156-163 | the guard chain selects exactly the first band whose bound exceeds the height, the catch-all when none does |
| `Biomes.ClassifyBands` | src/main.rs:155-163 | each biome is chosen exactly on its right-open interval; heights below 0 are deep water and above 1 snow |
| `Biomes.ClassifyMonotone` | src/main.rs:156-163 | a higher height never selects a lower band |
| `Biomes.QuantizedBaseColor` | src/main.rs:156-164 | the six table colours after quantisation at pixel size 1: deep water and water (0,0,255), sand and snow (255,255,255), grass (0,255,0), mountain (255,0,0) |
| `Biomes.TerrainColorQuantized` | src/main.rs:155-165 | every terrain colour is opaque and one of four colours, given height range by height range |
| `Fractal.CentredCoord` | src/main.rs:119-120 | centred coordinates of in-grid pixels lie in [-0.5, 0.5) |
| `Fractal.OctaveNoise` | src/main.rs:122-133 | after the loop the accumulated value is the sum over octaves k of the noise at `n * lacunarity^k * scale` weighted by `persistence^k`; its invariants keep amplitude = persistence^k and frequency = lacunarity^k |
| `Fractal.AmplitudeDecay` | src/main.rs:131 | octave weights never grow for persistence in [0, 1] and strictly shrink for persistence in (0, 1) |
| `Fractal.LayerBound` | src/main.rs:129 | with noise in [-1, 1] octave k contributes at most persistence^k in magnitude |
| `Fractal.FractalSumBound` | src/main.rs:126-133 | with noise in [-1, 1] the octave sum lies within the sum of the octave weights |
| `Fractal.SingleOctaveInUnitInterval` | src/main.rs:126-135 | with one octave and noise in [-1, 1] the normalised height lies in [0, 1] |
| `Terrain.Grid` | src/main.rs:116-118 | the first `rows` rows hold `rows * width` pixels |
| `Terrain.GridAt` | src/main.rs:116-118 | in the concatenated rows the colour of (x, y) sits at index `y * width + x` |
| `Terrain.PixelsRowMajor` | src/main.rs:116-139 | the pixel vector has `width * height` entries and the colour of (x, y) at `y * width + x` |
| `Terrain.FlattenRgba` | src/main.rs:143 | flattening yields four bytes per pixel |
| `Terrain.FlattenRgbaAt` | src/main.rs:143 | byte `4 i + c` of the flattened buffer is channel `c` of pixel `i` |
| `Terrain.ImageLayout` | src/main.rs:141-144 | the stored buffer has `4 * width * height` bytes with channel `c` of (x, y) at `4 * (y * width + x) + c` |
| `Terrain.ImageOpaqueInPalette` | src/main.rs:173-177 | every stored pixel has alpha byte 255 and is one of the four quantised terrain colours, whatever the noise |
| `Terrain.EmptyGrid` | src/main.rs:116-118 | a zero width or height gives an empty buffer |
| `Terrain.RenderPixels` | src/main.rs:116-139 | the nested pixel loops, each running the octave loop, produce exactly the row-major pixel vector |
| `Terrain.TerrainApp.constructor` | src/main.rs:86-104 | a new app holds the default configuration (512 x 512, scale 50, 6 octaves, persistence 0.5, lacunarity 2, pixel size 1), the given seed and the terrain generated from them |
| `Terrain.TerrainApp.RegenerateTerrain` | src/main.rs:107-145 | the terrain image becomes the image synthesised from the seed's noise field and the configuration; configuration and seed are unchanged |

## Left out

- Perlin noise itself (`noise::Perlin`) is a foreign library: the field is an uninterpreted deterministic function, and its range [-1, 1] is a hypothesis of the bound lemmas, not a proved fact.
- f64 and f32 rounding of the octave sum, the centred coordinates and the normalisation: these are modelled over `real`, with no bit-exact claims. A NaN height, which the source would send to snow, has no counterpart over `real`.
- The egui/eframe user interface: the sliders, the button and the visuals in `update`, the texture upload in `update_texture`, the `texture_handle` field and window setup in `main`.
- Font loading from the filesystem in `TerrainApp::new`, and the random seed from `rand::thread_rng`: the constructor takes the seed as a parameter.
- The internals of `ColorImage::from_rgba_unmultiplied` belong to egui: the terrain image is modelled as its size and the byte buffer passed to it.
- The initial 256 x 256 black `ColorImage::new` is modelled as the byte buffer of that image; it is overwritten at once by the first regeneration.
- Quantization.QuantizeChannel: requires a pixel size of at least 1, because the source panics (integer division by zero) on 0 rather than returning a value.
