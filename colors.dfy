/** Fixed-width integers and the egui colour values the terrain pipeline produces. */
module Colors {

  /** A Rust `u8`. */
  type Byte = x: int | 0 <= x < 0x100

  /** A Rust `u32`. */
  type U32 = x: int | 0 <= x < 0x1_0000_0000

  /** An opaque colour before display: the `[u8; 3]` of a biome table entry. */
  datatype Rgb = Rgb(r: Byte, g: Byte, b: Byte)

  /** An egui `Color32`, kept as its four channels in `to_array` order. */
  datatype Color32 = Color32(r: Byte, g: Byte, b: Byte, a: Byte)

  /** `Color32::from_rgb`: the given channels with full opacity. */
  function FromRgb(r: Byte, g: Byte, b: Byte): Color32
  {
    Color32(r, g, b, 255)
  }

  /** `Color32::to_array`: the four channel bytes, red first. */
  function ToArray(c: Color32): seq<Byte>
  {
    [c.r, c.g, c.b, c.a]
  }

  /** A Rust `as u8` cast from a float that holds an integer: saturates at both ends. */
  function SaturatingU8(x: int): Byte
  {
    if x < 0 then 0 else if x > 255 then 255 else x
  }
}
