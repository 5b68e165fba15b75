/** The accelerometer on the far side of the bus, as a register file that
    treats the first byte of each chip-select frame as a command (bit 7 the
    direction, the low seven bits the register) and every later byte as data. */
module Sensor {
  import opened Lis3dhMap

  /** Where the device is within the current frame. */
  datatype Phase = Command | Payload(read: bool, reg: nat)

  /** `floating` is the byte the master samples on MISO whenever the device
      does not drive the line (command phase, writes, deselected). */
  datatype Accelerometer = Accelerometer(regs: seq<byte>, selected: bool, phase: Phase, floating: byte)
  {
    predicate Valid() {
      && |regs| == REGISTER_COUNT
      && (phase.Payload? ==> phase.reg < REGISTER_COUNT)
      && (!selected ==> phase == Command)
    }
  }

  /** The device's state after one full-duplex exchange, and the byte it sent back. */
  datatype Exchanged = Exchanged(device: Accelerometer, miso: byte)

  /** How the device reads a command byte. */
  function DecodeCommand(b: byte): (p: Phase)
    ensures p.Payload? && p.reg < REGISTER_COUNT
    ensures p.read <==> b >= 0x80
    ensures b == (if p.read then 0x80 else 0x00) + p.reg
  {
    Payload(b >= 0x80, b % 0x80)
  }

  /** Chip select falls: a deselected device starts a new frame. */
  function Select(d: Accelerometer): (r: Accelerometer)
    requires d.Valid()
    ensures r.Valid() && r.selected
    ensures r.regs == d.regs && r.floating == d.floating
    ensures !d.selected ==> r.phase == Command
  {
    if d.selected then d else d.(selected := true, phase := Command)
  }

  /** Chip select rises: the frame ends. */
  function Deselect(d: Accelerometer): (r: Accelerometer)
    requires d.Valid()
    ensures r.Valid() && !r.selected
    ensures r.regs == d.regs && r.floating == d.floating
    ensures !d.selected ==> r == d
  {
    d.(selected := false, phase := Command)
  }

  /** One byte exchange: the device takes `mosi` and answers on MISO. */
  function Exchange(d: Accelerometer, mosi: byte): (r: Exchanged)
    requires d.Valid()
    ensures r.device.Valid()
    ensures r.device.selected == d.selected && r.device.floating == d.floating
    ensures !d.selected ==> r == Exchanged(d, d.floating)
    ensures |r.device.regs| == |d.regs|
    ensures forall i :: 0 <= i < |d.regs| && r.device.regs[i] != d.regs[i] ==>
              d.selected && d.phase == Payload(false, i)
  {
    if !d.selected then Exchanged(d, d.floating)
    else match d.phase
      case Command => Exchanged(d.(phase := DecodeCommand(mosi)), d.floating)
      case Payload(read, reg) =>
        if read then Exchanged(d, d.regs[reg])
        else Exchanged(d.(regs := d.regs[reg := mosi]), d.floating)
  }
}
