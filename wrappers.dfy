// Value types shared by the drivers: the optional value wherever a driver
// may produce nothing, and a byte held in an int.

module Wrappers {
  datatype Option<T> = None | Some(value: T)

  /** An unsigned 8-bit value (uint8_t) after promotion to int. */
  type Byte = b: int | 0 <= b < 256
}
