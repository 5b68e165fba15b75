# LIS3DH SPI driver — a verified model

This project models the SPI register protocol of the LIS3DH accelerometer
driver (`Lab4-SPI-Student/user_src/LIS3DH.cpp`) in Dafny. The model has three
layers, as the driver does.

- **Byte transport.** `SPI_Transfer` busy-waits on the USART1 STATUS flag
  TXBL (bit 6, mask 0x40). It then writes TXDATA, busy-waits on TXC (bit 5,
  mask 0x20), and returns RXDATA.
- **Register framing.** `readRegister` and `writeRegister` work the same way:
  - clear chip select (port D pin 3);
  - send the command byte `READ + address` or `WRITE + address`;
  - send either the filler 0x25 or the data byte;
  - set chip select again.
- **Device operations.**
  - `setupLIS3DH` writes CTRL_REG1 := 0x47, then CTRL_REG4 := 0x88.
  - `initialize` runs the set-up steps and returns true.
  - `selfTest` checks that WHO_AM_I (0x0F) reads 0x33.
  - The three axis reads read a low and a high output register and build a
    16-bit two's-complement sample from them.

How the hardware is modelled:

- The hardware the driver touches is one class, `Hardware.Peripherals`. It
  holds the USART registers, the chip-select level and the accelerometer on
  the far side of the bus.
- The accelerometer (`Sensor`) is a register file of 128 bytes:
  - the first byte of each chip-select frame is a command (bit 7 is the
    direction, the low seven bits are the register);
  - each later byte is read back or stored.
- STATUS is the environment. The model gets the values that successive STATUS
  reads return (`status`). Each busy-wait loop is specified against that
  sequence.
- Two ghost logs record what happens:
  - `trace` holds chip-select edges, byte exchanges `Xfer(sent, received)` and
    the opaque set-up steps, in order;
  - `io` holds every access to STATUS, TXDATA and RXDATA, in order.

Modules, one per file:

- `lis3dh_map.dfy`: the constants.
- `sensor.dfy`: the device model.
- `transport.dfy`: the polling specification and the ordering of a transfer.
- `framing.dfy`: command bytes, frames and the register-file round trip.
- `bus.dfy`: the events of the bus trace and the initialisation steps.
- `samples.dfy`: raw-sample assembly and conversion.
- `hardware.dfy`: the peripherals.
- `driver.dfy`: the `Lis3dh` class, with one method per driver function.

Decisions the model makes explicit:

- `READ + address` is computed in `unsigned int` and truncated to `uint8_t`,
  so the model uses `(0x80 + address) % 256`. A masking implementation would
  send `0x80 | (address & 0x7F)`; the code does not mask the address, and the
  model follows the code. For an address below 0x80 the two agree
  (`ReadAddressFraming`). For an address with bit 7 set the command wraps:
  - a "read" writes 0x25 into the register 0x80 below (`MisframedRead`);
  - a "write" becomes a read and changes nothing (`MisframedWrite`).
- `(int16_t)((uint16_t)highByte << 8) + ((uint16_t)lowByte)` casts only the
  shifted high byte. The sum is converted again when it is stored in an
  `int16_t`. The model writes out both conversions (`ToInt16`). Both are
  modular, as the target compiler implements them. The result is the
  two's-complement reading of `high:low`.
- Chip select idles high. The `Peripherals` constructor and `SetupGpio`
  establish this, and every driver operation restores it.

## Model

| member | source | states |
|---|---|---|
| Transport.Raised | Lab4-SPI-Student/user_src/LIS3DH.cpp:156-162 | the loop test `((STATUS & MASK) >> bit) == 1` holds exactly when the flag's mask bit is set |
| Transport.Await | Lab4-SPI-Student/user_src/LIS3DH.cpp:156 | where a busy-wait stops: an index at or after the start whose STATUS value has the flag raised |
| Transport.AwaitIsFirst | Lab4-SPI-Student/user_src/LIS3DH.cpp:156 | the wait stops at the first raised flag; it never stops exactly when no later STATUS value raises the flag |
| Transport.TransferEnd | Lab4-SPI-Student/user_src/LIS3DH.cpp:153-167 | a transfer reads STATUS at least twice (once per loop) and no further than the available values |
| Transport.TransferOrdering | Lab4-SPI-Student/user_src/LIS3DH.cpp:153-167 | the accesses of one transfer are: STATUS reads up to the first TXBL, the TXDATA write of the byte sent, STATUS reads up to the first later TXC, then the RXDATA read of the byte returned |
| Transport.TransfersIoAppend | Lab4-SPI-Student/user_src/LIS3DH.cpp:136-139 | the accesses of consecutive transfers are those of the first run followed by those of the second |
| Sensor.DecodeCommand | Lab4-SPI-Student/user_src/LIS3DH.cpp:16-17 | the device reads bit 7 of a command byte as the direction and the low seven bits as the register, and the byte is rebuilt from the two |
| Sensor.Exchange | Lab4-SPI-Student/user_src/LIS3DH.cpp:159-165 | one full-duplex exchange keeps the device valid, is ignored while deselected, and changes at most the register a write frame addresses |
| Framing.AddressByte | Lab4-SPI-Student/user_src/LIS3DH.cpp:136 | `marker + address` narrowed to `uint8_t`: the sum itself below 0x100, and the sum less 0x100 otherwise |
| Framing.ReadAddress | Lab4-SPI-Student/user_src/LIS3DH.cpp:136 | `READ + address` is the address plus 0x80 for an address below 0x80, and wraps to the address less 0x80 otherwise |
| Framing.WriteAddress | Lab4-SPI-Student/user_src/LIS3DH.cpp:179 | `WRITE + address` is the address itself |
| Framing.ReadFrame | Lab4-SPI-Student/user_src/LIS3DH.cpp:136-139 | a read sends two bytes, the second the filler 0x25; for a register address the device decodes the first as a read of that register |
| Framing.WriteFrame | Lab4-SPI-Student/user_src/LIS3DH.cpp:179-182 | a write sends two bytes, the second the data; for a register address the device decodes the first as a write of that register |
| Framing.ReadAddressFraming | Lab4-SPI-Student/user_src/LIS3DH.cpp:136 | for an address below 0x80, `READ + address` equals `0x80 \| address`: bit 7 is set and the low seven bits are the address |
| Framing.WriteAddressFraming | Lab4-SPI-Student/user_src/LIS3DH.cpp:179 | for an address below 0x80, `WRITE + address` is the address itself, with bit 7 clear |
| Framing.CommandsDecode | Lab4-SPI-Student/user_src/LIS3DH.cpp:16-17 | the device decodes the two commands as a read and a write of the same address |
| Framing.ReadAddressWraps | Lab4-SPI-Student/user_src/LIS3DH.cpp:136 | for an address with bit 7 set, the truncated `READ + address` is `address - 0x80`, which the device decodes as a write |
| Framing.Shift | Lab4-SPI-Student/user_src/LIS3DH.cpp:136-139 | clocking n bytes through the device returns n bytes and keeps its selection state |
| Framing.Transaction | Lab4-SPI-Student/user_src/LIS3DH.cpp:131-146 | a chip-select frame returns one byte per byte sent and leaves the device deselected |
| Framing.TransactionPair | Lab4-SPI-Student/user_src/LIS3DH.cpp:131-146 | a two-byte frame is exactly: select, exchange, exchange, deselect |
| Framing.ReadRegisterFrame | Lab4-SPI-Student/user_src/LIS3DH.cpp:131-146 | a read frame returns the register's contents in the second exchange, the undriven line in the first, and leaves the device unchanged |
| Framing.WriteRegisterFrame | Lab4-SPI-Student/user_src/LIS3DH.cpp:174-186 | a write frame stores the value in the addressed register and changes nothing else |
| Framing.MisframedRead | Lab4-SPI-Student/user_src/LIS3DH.cpp:136 | a read of an address with bit 7 set writes 0x25 into the register 0x80 below and returns no register value |
| Framing.MisframedWrite | Lab4-SPI-Student/user_src/LIS3DH.cpp:179 | a write to an address with bit 7 set is taken as a read: the value is lost and no register changes |
| Framing.WriteThenRead | Lab4-SPI-Student/user_src/LIS3DH.cpp:127-186 | round trip: writing v and then reading the same register returns v, and the write left every other register unchanged |
| Framing.FramesActAsRegisterFile | Lab4-SPI-Student/user_src/LIS3DH.cpp:127-186 | any sequence of register reads and writes framed by the protocol gives the same final registers and the same read results as a plain array of 128 bytes |
| Bus.Xfers | Lab4-SPI-Student/user_src/LIS3DH.cpp:136-139 | the bus events of a frame pair each byte sent with the byte received in the same exchange |
| Samples.RawSample | Lab4-SPI-Student/user_src/LIS3DH.cpp:248 | the assembled value, with both `int16_t` conversions written out, always fits in an `int16_t` (its exact value is `RawSampleValue`) |
| Samples.ReadingToAccel | Lab4-SPI-Student/user_src/LIS3DH.cpp:289-293 | the conversion keeps the sign of the reading: negative exactly for negative readings, zero exactly for zero |
| Samples.ToInt16 | Lab4-SPI-Student/user_src/LIS3DH.cpp:248 | conversion to `int16_t` yields the value in [-32768, 32767] congruent modulo 65536, and keeps values already in range |
| Samples.RawSampleValue | Lab4-SPI-Student/user_src/LIS3DH.cpp:248 | the assembled sample lies in [-32768, 32767], is congruent to `high*256 + low` modulo 65536, and equals it minus 65536 exactly when `high >= 0x80` |
| Samples.SampleRoundTrip | Lab4-SPI-Student/user_src/LIS3DH.cpp:248 | splitting any 16-bit sample into its high and low register bytes and assembling it again gives the sample back |
| Samples.BytesRoundTrip | Lab4-SPI-Student/user_src/LIS3DH.cpp:248 | assembling a high/low pair and splitting it again gives the pair back, so the assembly is a bijection |
| Samples.ConversionScale | Lab4-SPI-Student/user_src/LIS3DH.cpp:289-293 | over the reals, 0 converts to 0 g and 32767 to exactly 2 g; -32768 converts to -2 - 2/32767 g, slightly beyond the full scale |
| Samples.ConversionBounded | Lab4-SPI-Student/user_src/LIS3DH.cpp:289-293 | every reading above -32768 converts to within ±2 g, and the conversion is monotone |
| Hardware.Peripherals.ReadStatus | Lab4-SPI-Student/user_src/LIS3DH.cpp:156 | a STATUS read returns the next value and is logged |
| Hardware.Peripherals.WriteTxData | Lab4-SPI-Student/user_src/LIS3DH.cpp:159 | writing TXDATA exchanges the byte with the device, puts the device's answer in RXDATA and records `Xfer(sent, received)` |
| Hardware.Peripherals.ReadRxData | Lab4-SPI-Student/user_src/LIS3DH.cpp:165 | reading RXDATA returns the byte received and is logged |
| Hardware.Peripherals.PinOutClear | Lab4-SPI-Student/user_src/LIS3DH.cpp:133 | chip select goes low, the device is selected, and `CSLow` is recorded |
| Hardware.Peripherals.PinOutSet | Lab4-SPI-Student/user_src/LIS3DH.cpp:142 | chip select goes high, the device ends the frame, and `CSHigh` is recorded |
| Hardware.Peripherals.Configure | Lab4-SPI-Student/user_src/LIS3DH.cpp:79-91 | a set-up step is recorded; the pin set-up also drives chip select high and deselects the device |
| Driver.Lis3dh.WaitFor | Lab4-SPI-Student/user_src/LIS3DH.cpp:156 | a busy-wait loop reads STATUS up to and including the first value with the flag raised, and logs exactly those reads |
| Driver.Lis3dh.SpiTransfer | Lab4-SPI-Student/user_src/LIS3DH.cpp:153-167 | sends the byte, returns what the device answered in that exchange, records one `Xfer`, and logs the accesses whose order `TransferOrdering` fixes |
| Driver.Lis3dh.ReadRegister | Lab4-SPI-Student/user_src/LIS3DH.cpp:131-146 | the trace grows by exactly [CSLow, Xfer(READ + a, junk), Xfer(0x25, v), CSHigh] and the method returns v; for a < 0x80 v is register a and the device is unchanged; for a >= 0x80 the wrap turns the frame into a write of 0x25 |
| Driver.Lis3dh.WriteRegister | Lab4-SPI-Student/user_src/LIS3DH.cpp:174-186 | the trace grows by exactly [CSLow, Xfer(WRITE + a, _), Xfer(d, _), CSHigh], both replies are dropped, and for a < 0x80 only register a changes, to d |
| Driver.Lis3dh.SetupLis3dh | Lab4-SPI-Student/user_src/LIS3DH.cpp:118-124 | exactly two write frames, (0x20, 0x47) then (0x23, 0x88), and the registers change by exactly those two writes |
| Driver.Lis3dh.Delay | Lab4-SPI-Student/user_src/LIS3DH.cpp:299-306 | the power-on delay is recorded as one opaque step and changes nothing else |
| Driver.Lis3dh.SetupClocks | Lab4-SPI-Student/user_src/LIS3DH.cpp:71-74 | recorded as one opaque step |
| Driver.Lis3dh.SetupGpio | Lab4-SPI-Student/user_src/LIS3DH.cpp:79-91 | recorded as one opaque step; leaves chip select high |
| Driver.Lis3dh.SetupUsart | Lab4-SPI-Student/user_src/LIS3DH.cpp:96-112 | recorded as one opaque step |
| Driver.Lis3dh.Initialize | Lab4-SPI-Student/user_src/LIS3DH.cpp:194-215 | always returns true; the trace is: delay(5), clocks, GPIO, USART, write (0x20, 0x47), write (0x23, 0x88), in that order; the registers end with those two writes applied |
| Driver.Lis3dh.SelfTest | Lab4-SPI-Student/user_src/LIS3DH.cpp:222-236 | exactly one read frame of WHO_AM_I (0x0F); returns true iff that register holds 0x33; the device is unchanged |
| Driver.Lis3dh.ReadRawSample | Lab4-SPI-Student/user_src/LIS3DH.cpp:244-248 | reads the low register, then the high one (two frames, in that order), and returns the assembled sample of their contents |
| Driver.Lis3dh.GetXAcceleration | Lab4-SPI-Student/user_src/LIS3DH.cpp:242-251 | reads 0x28 and then 0x29 (two frames, each logged as its two transfers), and returns the conversion of the sample they form |
| Driver.Lis3dh.GetYAcceleration | Lab4-SPI-Student/user_src/LIS3DH.cpp:257-266 | reads 0x2A and then 0x2B (two frames, each logged as its two transfers), and returns the conversion of the sample they form |
| Driver.Lis3dh.GetZAcceleration | Lab4-SPI-Student/user_src/LIS3DH.cpp:273-282 | reads 0x2C and then 0x2D (two frames, each logged as its two transfers), and returns the conversion of the sample they form |

## Left out

- `convertReadingToAccel` is modelled over the reals (`ReadingToAccel`). It keeps the hard-coded full scale of 2 and ignores `scaleRange`, as the code does. Single-precision rounding is not modelled.
- `setupClocks`, `setupGPIO` and `setupUSART` are vendor-library calls and raw peripheral writes. The model keeps them as opaque steps in the trace. Of the pin set-up it keeps only one effect: chip select is driven high.
- `delay` is a busy loop that counts to `num * 1000` and has no observable result. The model records it as one step and does not model the loop.
- The constructor defaults (bus speed, pin location, the `USART1` handle, scale range, sensitivity) and the empty destructor are stored fields only. The model does not keep them.
- `setupUSART` writes CTRL, CLKDIV, CMD, FRAME and ROUTE. These writes are not in the `io` log; `io` records only the accesses to STATUS, TXDATA and RXDATA.
- The bytes the device sends when it does not drive MISO (the junk returned with a command byte, and both replies in a write frame) are modelled as one constant byte, `floating`, fixed for the device's whole life. The exact traces of `SetupLis3dh` and `Initialize`, and the value returned by a misframed read, depend on that choice.
- `main.cpp` is not part of this model. It only sequences the driver calls, computes a magnitude with floating-point `sqrt`, and ends in halt loops.
- When the hardware raises TXBL and TXC is not modelled. STATUS is a given sequence of values. Every transfer requires that sequence to raise both flags in time (`CanTransfer`). The non-terminating case, a bus that never answers, is therefore outside the model.
- The device model is a plain register file. It does not model the LIS3DH's auto-increment bit (bit 6 of the command), read-only registers, or the effect of the configuration values on sampling.
- Driver.Lis3dh.ReadRegister: the register value and the unchanged device are stated only when chip select is high on entry. Otherwise the frame continues the device's current one, and the result is stated only through `Transaction`.
- Driver.Lis3dh.WriteRegister: the register update is stated only when chip select is high on entry, for the same reason.
- Driver.Lis3dh.SelfTest: requires chip select high on entry. The same holds for SetupLis3dh, ReadRawSample and the three axis reads. Every operation leaves chip select high, and pin set-up establishes it.
