/** Optional values and results that carry an error, as the service's optionals and exceptions. */
module Wrappers {

  datatype Option<+T> = None | Some(value: T)

  datatype Result<+T, +E> = Ok(value: T) | Err(error: E)

  /** The C++ `int` of the service. */
  type Int32 = x: int | -0x8000_0000 <= x < 0x8000_0000

  /** The `std::int64_t` of protocol operands. */
  type Int64 = x: int | -0x8000_0000_0000_0000 <= x < 0x8000_0000_0000_0000

  const INT32_MIN: Int32 := -0x8000_0000
  const INT32_MAX: Int32 := 0x7fff_ffff
}
