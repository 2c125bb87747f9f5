/** Fixed-width C integer types of the firmware, and an Option type. */
module Types {

  type uint8 = x: int | 0 <= x < 0x100
  type uint16 = x: int | 0 <= x < 0x1_0000
  type uint32 = x: int | 0 <= x < 0x1_0000_0000
  type int16 = x: int | -0x8000 <= x < 0x8000

  const UINT16_MAX: uint16 := 0xFFFF

  datatype Option<T> = None | Some(value: T)
}
