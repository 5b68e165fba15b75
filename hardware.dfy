/** The hardware the driver touches: the USART1 registers STATUS, TXDATA and
    RXDATA, the chip-select line on port D pin 3, and the accelerometer wired
    to them. Ghost logs record what a logic analyser would see. */
module Hardware {
  import opened Lis3dhMap
  import opened Sensor
  import opened Transport
  import opened Framing
  import opened Bus

  class Peripherals {
    /** The successive values reads of STATUS return; their timing is the
        hardware's and is not modelled. */
    const status: seq<bv32>
    /** How many times STATUS has been read. */
    var polls: nat
    var txdata: byte
    var rxdata: byte
    /** Output level of port D pin 3 (chip select, active low). */
    var csHigh: bool
    var sensor: Accelerometer
    /** Chip-select edges, byte exchanges and set-up steps, in order. */
    ghost var trace: seq<Event>
    /** Every access to STATUS, TXDATA and RXDATA, in order. */
    ghost var io: seq<Access>

    ghost predicate Valid()
      reads this
    {
      sensor.Valid() && sensor.selected == !csHigh && polls <= |status|
    }

    constructor (status: seq<bv32>, sensor: Accelerometer)
      requires sensor.Valid() && !sensor.selected
      ensures Valid() && csHigh
      ensures this.status == status && this.sensor == sensor && polls == 0
      ensures trace == [] && io == []
    {
      this.status := status;
      this.sensor := sensor;
      polls, txdata, rxdata, csHigh := 0, 0, 0, true;
      trace, io := [], [];
    }

    /** A read of STATUS returns the next value of the feed. */
    method ReadStatus() returns (s: bv32)
      requires Valid() && polls < |status|
      modifies this`polls, this`io
      ensures Valid()
      ensures s == status[old(polls)] && polls == old(polls) + 1
      ensures io == old(io) + [StatusRead(s)]
    {
      s := status[polls];
      polls := polls + 1;
      io := io + [StatusRead(s)];
    }

    /** Writing TXDATA clocks one byte out on MOSI while the device answers on
        MISO; the answer lands in RXDATA. */
    method WriteTxData(data: byte)
      requires Valid()
      modifies this`txdata, this`rxdata, this`sensor, this`trace, this`io
      ensures Valid()
      ensures var e := Exchange(old(sensor), data);
              sensor == e.device && rxdata == e.miso && txdata == data
      ensures trace == old(trace) + [Xfer(data, rxdata)]
      ensures io == old(io) + [TxWrite(data)]
    {
      var e := Exchange(sensor, data);
      txdata, sensor, rxdata := data, e.device, e.miso;
      trace := trace + [Xfer(data, e.miso)];
      io := io + [TxWrite(data)];
    }

    method ReadRxData() returns (data: byte)
      requires Valid()
      modifies this`io
      ensures Valid()
      ensures data == rxdata
      ensures io == old(io) + [RxRead(data)]
    {
      data := rxdata;
      io := io + [RxRead(data)];
    }

    /** `GPIO_PinOutClear(gpioPortD, 3)`: chip select low. */
    method PinOutClear()
      requires Valid()
      modifies this`csHigh, this`sensor, this`trace
      ensures Valid() && !csHigh
      ensures sensor == Select(old(sensor))
      ensures trace == old(trace) + [CSLow]
    {
      csHigh := false;
      sensor := Select(sensor);
      trace := trace + [CSLow];
    }

    /** `GPIO_PinOutSet(gpioPortD, 3)`: chip select high. */
    method PinOutSet()
      requires Valid()
      modifies this`csHigh, this`sensor, this`trace
      ensures Valid() && csHigh
      ensures sensor == Deselect(old(sensor))
      ensures trace == old(trace) + [CSHigh]
    {
      csHigh := true;
      sensor := Deselect(sensor);
      trace := trace + [CSHigh];
    }

    /** One opaque set-up step. Of the pin configuration only its effect on
        chip select is modelled: port D pin 3 becomes an output driven high. */
    method Configure(step: InitStep)
      requires Valid()
      modifies this`csHigh, this`sensor, this`trace
      ensures Valid()
      ensures step == GpioSetup ==> csHigh && sensor == Deselect(old(sensor))
      ensures step != GpioSetup ==> csHigh == old(csHigh) && sensor == old(sensor)
      ensures trace == old(trace) + [Step(step)]
    {
      if step == GpioSetup {
        csHigh := true;
        sensor := Deselect(sensor);
      }
      trace := trace + [Step(step)];
    }
  }
}
