/** The pixel type the buffers hold: Unity's Color32, four 8-bit channels. */
module Pixels {

  newtype byte = x: int | 0 <= x < 256

  datatype Color32 = Color32(r: byte, g: byte, b: byte, a: byte)

  /** default(Color32): what a freshly allocated Color32[] holds in every slot. */
  const Clear: Color32 := Color32(0, 0, 0, 0)
}
