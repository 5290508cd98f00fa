// Shared vocabulary of the I2C devices: the register pointer a driver sends
// before each register access (an 8-bit value on the wire).

module I2c {
  /** A device register address, the uint8_t `regAddr` of the drivers. */
  type RegAddr = a: int | 0 <= a < 256
}
