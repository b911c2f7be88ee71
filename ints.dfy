/** The fixed-width C integer types of the records. Dafny's `int` is
    unbounded, so each width is a newtype over the range the C type holds. */
module Ints {

  const INT64_MIN: int := -0x8000_0000_0000_0000
  const INT64_LIMIT: int := 0x8000_0000_0000_0000
  const INT32_MIN: int := -0x8000_0000
  const INT32_LIMIT: int := 0x8000_0000

  /** `int64_t`: every timestamp of the records (Unix seconds, UTC). */
  newtype Int64 = x: int | INT64_MIN <= x < INT64_LIMIT

  /** `int`, which is 32 bits wide on the ESP32. */
  newtype Int32 = x: int | INT32_MIN <= x < INT32_LIMIT

  /** `int16_t`. */
  newtype Int16 = x: int | -0x8000 <= x < 0x8000

  /** `uint16_t`. */
  newtype UInt16 = x: int | 0 <= x < 0x1_0000

  /** `uint8_t`. */
  newtype UInt8 = x: int | 0 <= x < 0x100

  /** The C conversion of a signed value to `uint8_t`: reduction modulo 2^8
      (Dafny's `%` is Euclidean, so the remainder is never negative, as the
      C conversion to an unsigned type requires). */
  function ToUInt8(x: int): (r: UInt8)
    ensures (r as int - x) % 0x100 == 0
    ensures 0 <= x < 0x100 ==> r as int == x
  {
    (x % 0x100) as UInt8
  }
}
