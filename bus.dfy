/** The bus trace: what the driver does, in order, as seen on the SPI lines
    and in the opaque set-up steps. */
module Bus {
  import opened Lis3dhMap

  /** The set-up steps of `initialize` that the model leaves opaque. */
  datatype InitStep = PowerOnDelay(ms: int) | ClockSetup | GpioSetup | UsartSetup

  /** What happens on the bus, in order: chip-select edges, byte exchanges
      (sent on MOSI, received on MISO) and the opaque set-up steps. */
  datatype Event = CSLow | CSHigh | Xfer(sent: byte, received: byte) | Step(step: InitStep)

  function Xfers(mosi: seq<byte>, miso: seq<byte>): (r: seq<Event>)
    requires |mosi| == |miso|
    ensures |r| == |mosi|
    ensures forall i :: 0 <= i < |r| ==> r[i] == Xfer(mosi[i], miso[i])
    decreases |mosi|
  {
    if mosi == [] then [] else [Xfer(mosi[0], miso[0])] + Xfers(mosi[1..], miso[1..])
  }

  /** A frame on the bus: chip select low, the exchanges, chip select high. */
  function FrameTrace(mosi: seq<byte>, miso: seq<byte>): seq<Event>
    requires |mosi| == |miso|
  {
    [CSLow] + Xfers(mosi, miso) + [CSHigh]
  }
}
