/** Constants of the LIS3DH driver: the accelerometer's register map, the
    read/write markers of the SPI protocol and the USART status masks. */
module Lis3dhMap {

  /** An 8-bit unsigned value (`uint8_t`). */
  type byte = x: int | 0 <= x < 0x100

  /** Identity register and the value the device is expected to hold there. */
  const WHO_AM_I: byte := 0x0F
  const IDENTITY: byte := 0x33

  /** Filler byte clocked out while a register value is read back. */
  const DUMMY_DATA: byte := 0x25

  /** Markers added to a register address to form the command byte. */
  const READ: byte := 0x80
  const WRITE: byte := 0x00

  /** USART STATUS bits: transmit buffer level (bit 6) and transmit complete (bit 5). */
  const TXBL_MASK: bv32 := 0x40
  const TXC_MASK: bv32 := 0x20

  /** The two configuration registers and the values written to them. */
  const CTRL_REG1: byte := 0x20
  const CTRL_REG4: byte := 0x23
  const CTRL1_CONFIG: byte := 0x47
  const CTRL4_CONFIG: byte := 0x88

  /** Output registers, a low and a high byte per axis. */
  const OUT_X_L: byte := 0x28
  const OUT_X_H: byte := 0x29
  const OUT_Y_L: byte := 0x2A
  const OUT_Y_H: byte := 0x2B
  const OUT_Z_L: byte := 0x2C
  const OUT_Z_H: byte := 0x2D

  /** Registers reachable with the seven address bits of a command byte. */
  const REGISTER_COUNT: nat := 0x80
}
