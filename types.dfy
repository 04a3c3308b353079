/**
 * Fixed-width integer types of the C sources, written out explicitly, and the
 * Option type that stands for a pointer that may be NULL.
 */
module Types {

  /** `None` models a NULL pointer argument; `Some(v)` a valid pointer to `v`. */
  datatype Option<T> = None | Some(value: T)

  /** uint8_t */
  type Byte = x: int | 0 <= x < 0x100

  /** int16_t */
  type Int16 = x: int | -0x8000 <= x < 0x8000

  /** uint64_t, the type of every timestamp in milliseconds. */
  type Timestamp = x: int | 0 <= x < 0x1_0000_0000_0000_0000

  /** RUUVI_DRIVER_UINT64_INVALID: the largest uint64_t marks "no valid timestamp". */
  const UINT64_INVALID: Timestamp := 0xFFFF_FFFF_FFFF_FFFF

  /** Conversion to int16_t: two's-complement wrap-around modulo 2^16. */
  function ToInt16(x: int): (r: Int16)
    ensures -0x8000 <= x < 0x8000 ==> r == x
    ensures (x - r) % 0x1_0000 == 0
  {
    (x + 0x8000) % 0x1_0000 - 0x8000
  }

  /** Conversion to uint8_t: truncation modulo 2^8. */
  function ToByte(x: int): (r: Byte)
    ensures 0 <= x < 0x100 ==> r == x
    ensures (x - r) % 0x100 == 0
  {
    x % 0x100
  }
}
