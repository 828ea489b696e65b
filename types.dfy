/** Fixed-width integers, points and the device-type tag shared by the device code. */
module DreamTypes {

  /** The engine's `s32`: a signed two's-complement 32-bit integer. */
  newtype s32 = x: int | -0x8000_0000 <= x < 0x8000_0000

  /** The engine's `u32`: an unsigned 32-bit integer. */
  newtype u32 = x: int | 0 <= x < 0x1_0000_0000

  /** The C++ conversion `(s32)u` of a `u32`: the one `s32` congruent to `u`
      modulo 2^32, so extents of 2^31 and above read as negative numbers. */
  function AsS32(u: u32): (s: s32)
    ensures (s as int - u as int) % 0x1_0000_0000 == 0
    ensures 0 <= s <==> u < 0x8000_0000
    ensures u < 0x8000_0000 ==> s as int == u as int
  {
    if u < 0x8000_0000 then u as s32 else (u as int - 0x1_0000_0000) as s32
  }

  /** `position2d<s32>`: an integer point in window pixels. */
  datatype Position2D = Position2D(x: s32, y: s32)

  /** `E_DEVICE_TYPE`: the backend tag a device reports. Only the Android
      enumerator is visible in the modelled header; `OtherBackend` stands for
      the enumerators declared elsewhere. */
  datatype DeviceType = Android | OtherBackend
}
