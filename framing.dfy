/** Register framing: the command byte, the two-byte frames of a register
    read and a register write, and what a frame does to the accelerometer. */
module Framing {
  import opened Lis3dhMap
  import opened Sensor

  /** `marker + address` is computed in `unsigned int` and passed on as a
      `uint8_t`, so it is truncated to its low eight bits: a sum past 0xFF
      loses 0x100. */
  function AddressByte(marker: byte, address: byte): (r: byte)
    ensures marker + address < 0x100 ==> r == marker + address
    ensures marker + address >= 0x100 ==> r == marker + address - 0x100
  {
    (marker + address) % 0x100
  }

  /** `READ + address`: the address with 0x80 added, wrapping for an address
      that already has bit 7 set. */
  function ReadAddress(address: byte): (r: byte)
    ensures address < 0x80 ==> r == address + 0x80
    ensures address >= 0x80 ==> r == address - 0x80
  {
    AddressByte(READ, address)
  }

  /** `WRITE + address`: the address itself. */
  function WriteAddress(address: byte): (r: byte)
    ensures r == address
  {
    AddressByte(WRITE, address)
  }

  /** The bytes a register read sends: the command, then the filler. For a
      register address the device takes the command as a read of it. */
  function ReadFrame(address: byte): (f: seq<byte>)
    ensures |f| == 2 && f[1] == DUMMY_DATA
    ensures address < REGISTER_COUNT ==> DecodeCommand(f[0]) == Payload(true, address)
  {
    [ReadAddress(address), DUMMY_DATA]
  }

  /** The bytes a register write sends: the command, then the value. For a
      register address the device takes the command as a write of it. */
  function WriteFrame(address: byte, value: byte): (f: seq<byte>)
    ensures |f| == 2 && f[1] == value
    ensures address < REGISTER_COUNT ==> DecodeCommand(f[0]) == Payload(false, address)
  {
    [WriteAddress(address), value]
  }

  /** For a register address `b` (bit 7 clear), the read command is
      `0x80 | b`: bit 7 set and the low seven bits equal to `b`. */
  lemma ReadAddressFraming(b: bv8)
    requires b < 0x80
    ensures ReadAddress(b as int) == (b | 0x80) as int
    ensures ReadAddress(b as int) >= 0x80 && ReadAddress(b as int) % 0x80 == b as int
  {
  }

  /** The write command is the address itself, so its bit 7 is clear. */
  lemma WriteAddressFraming(b: bv8)
    requires b < 0x80
    ensures WriteAddress(b as int) == b as int && b & 0x80 == 0
    ensures WriteAddress(b as int) < 0x80
  {
  }

  /** The device decodes the two commands as a read and a write of the address. */
  lemma CommandsDecode(address: byte)
    requires address < REGISTER_COUNT
    ensures DecodeCommand(ReadAddress(address)) == Payload(true, address)
    ensures DecodeCommand(WriteAddress(address)) == Payload(false, address)
  {
  }

  /** An address with bit 7 already set wraps: the "read" command has bit 7
      clear and names the register 0x80 below, so the device takes it as a write. */
  lemma ReadAddressWraps(address: byte)
    requires address >= REGISTER_COUNT
    ensures ReadAddress(address) == address - 0x80
    ensures DecodeCommand(ReadAddress(address)) == Payload(false, address - 0x80)
  {
  }

  /** The device after a sequence of exchanges, and the bytes it sent back. */
  datatype Shifted = Shifted(device: Accelerometer, miso: seq<byte>)

  /** Clocking the bytes `mosi` through the device, one exchange each. */
  function Shift(d: Accelerometer, mosi: seq<byte>): (r: Shifted)
    requires d.Valid()
    ensures r.device.Valid() && |r.miso| == |mosi|
    ensures r.device.selected == d.selected && r.device.floating == d.floating
    decreases |mosi|
  {
    if mosi == [] then Shifted(d, [])
    else
      var e := Exchange(d, mosi[0]);
      var rest := Shift(e.device, mosi[1..]);
      Shifted(rest.device, [e.miso] + rest.miso)
  }

  /** One chip-select frame: select, exchange every byte, deselect. */
  function Transaction(d: Accelerometer, mosi: seq<byte>): (r: Shifted)
    requires d.Valid()
    ensures r.device.Valid() && !r.device.selected && |r.miso| == |mosi|
    ensures r.device.floating == d.floating
  {
    var s := Shift(Select(d), mosi);
    Shifted(Deselect(s.device), s.miso)
  }

  /** A two-byte frame is two exchanges between chip select and deselect. */
  lemma TransactionPair(d: Accelerometer, x: byte, y: byte)
    requires d.Valid()
    ensures var e1 := Exchange(Select(d), x);
            var e2 := Exchange(e1.device, y);
            Transaction(d, [x, y]) == Shifted(Deselect(e2.device), [e1.miso, e2.miso])
  {
    var e1 := Exchange(Select(d), x);
    var e2 := Exchange(e1.device, y);
    assert [x, y][1..] == [y];
    assert [y][1..] == [];
    assert Shift(e2.device, []) == Shifted(e2.device, []);
    assert Shift(e1.device, [y]) == Shifted(e2.device, [e2.miso]);
  }

  /** Reading a register returns its contents in the second exchange and
      leaves the device as it was. */
  lemma ReadRegisterFrame(d: Accelerometer, address: byte)
    requires d.Valid() && !d.selected && address < REGISTER_COUNT
    ensures Transaction(d, ReadFrame(address)) == Shifted(d, [d.floating, d.regs[address]])
  {
    CommandsDecode(address);
    TransactionPair(d, ReadAddress(address), DUMMY_DATA);
  }

  /** Writing a register stores the value there and changes nothing else. */
  lemma WriteRegisterFrame(d: Accelerometer, address: byte, value: byte)
    requires d.Valid() && !d.selected && address < REGISTER_COUNT
    ensures Transaction(d, WriteFrame(address, value))
            == Shifted(d.(regs := d.regs[address := value]), [d.floating, d.floating])
  {
    CommandsDecode(address);
    TransactionPair(d, WriteAddress(address), value);
  }

  /** A read with bit 7 of the address already set writes the filler byte
      0x25 into the register 0x80 below, and returns nothing the device drove. */
  lemma MisframedRead(d: Accelerometer, address: byte)
    requires d.Valid() && !d.selected && address >= REGISTER_COUNT
    ensures Transaction(d, ReadFrame(address))
            == Shifted(d.(regs := d.regs[address - 0x80 := DUMMY_DATA]), [d.floating, d.floating])
  {
    ReadAddressWraps(address);
    TransactionPair(d, ReadAddress(address), DUMMY_DATA);
  }

  /** A write with bit 7 of the address already set is a command the device
      takes as a read of the register 0x80 below: the value is lost and no
      register changes. */
  lemma MisframedWrite(d: Accelerometer, address: byte, value: byte)
    requires d.Valid() && !d.selected && address >= REGISTER_COUNT
    ensures WriteAddress(address) == address
    ensures Transaction(d, WriteFrame(address, value))
            == Shifted(d, [d.floating, d.regs[address - 0x80]])
  {
    assert DecodeCommand(WriteAddress(address)) == Payload(true, address - 0x80);
    TransactionPair(d, WriteAddress(address), value);
  }

  /** Round trip: a write followed by a read of the same register returns the
      value written, and the write left every other register alone. */
  lemma WriteThenRead(d: Accelerometer, address: byte, value: byte)
    requires d.Valid() && !d.selected && address < REGISTER_COUNT
    ensures var w := Transaction(d, WriteFrame(address, value)).device;
            && Transaction(w, ReadFrame(address)).miso[1] == value
            && forall i :: 0 <= i < REGISTER_COUNT && i != address ==> w.regs[i] == d.regs[i]
  {
    WriteRegisterFrame(d, address, value);
    var w := Transaction(d, WriteFrame(address, value)).device;
    ReadRegisterFrame(w, address);
  }

  /** One register access as the driver issues it. */
  datatype RegOp = ReadOp(reg: byte) | WriteOp(reg: byte, value: byte)

  function OpFrame(op: RegOp): seq<byte> {
    match op
    case ReadOp(a) => ReadFrame(a)
    case WriteOp(a, v) => WriteFrame(a, v)
  }

  predicate Addressable(ops: seq<RegOp>) {
    forall i :: 0 <= i < |ops| ==> ops[i].reg < REGISTER_COUNT
  }

  /** Running register accesses as frames against the device: its final
      state and the values the reads returned, in order. */
  function RunOps(d: Accelerometer, ops: seq<RegOp>): (r: Shifted)
    requires d.Valid() && !d.selected
    ensures r.device.Valid() && !r.device.selected
    decreases |ops|
  {
    if ops == [] then Shifted(d, [])
    else
      var t := Transaction(d, OpFrame(ops[0]));
      var rest := RunOps(t.device, ops[1..]);
      Shifted(rest.device, (if ops[0].ReadOp? then [t.miso[1]] else []) + rest.miso)
  }

  /** The final contents and the read results of a plain array of registers. */
  datatype Memory = Memory(regs: seq<byte>, results: seq<byte>)

  function Apply(regs: seq<byte>, ops: seq<RegOp>): (m: Memory)
    requires |regs| == REGISTER_COUNT && Addressable(ops)
    ensures |m.regs| == REGISTER_COUNT
    decreases |ops|
  {
    if ops == [] then Memory(regs, [])
    else
      var op := ops[0];
      var next := if op.WriteOp? then regs[op.reg := op.value] else regs;
      var rest := Apply(next, ops[1..]);
      Memory(rest.regs, (if op.ReadOp? then [regs[op.reg]] else []) + rest.results)
  }

  /** The framing protocol turns the device into a plain register array: any
      sequence of register reads and writes leaves the registers and returns
      the values an array of 128 bytes would. */
  lemma {:induction false} FramesActAsRegisterFile(d: Accelerometer, ops: seq<RegOp>)
    requires d.Valid() && !d.selected && Addressable(ops)
    ensures RunOps(d, ops).device == d.(regs := Apply(d.regs, ops).regs)
    ensures RunOps(d, ops).miso == Apply(d.regs, ops).results
    decreases |ops|
  {
    if ops != [] {
      var op := ops[0];
      assert op.reg < REGISTER_COUNT;
      var t := Transaction(d, OpFrame(op));
      match op {
        case ReadOp(a) => ReadRegisterFrame(d, a);
        case WriteOp(a, v) => WriteRegisterFrame(d, a, v);
      }
      assert Addressable(ops[1..]) by {
        forall i | 0 <= i < |ops[1..]| ensures ops[1..][i].reg < REGISTER_COUNT {
          assert ops[1..][i] == ops[i + 1];
        }
      }
      FramesActAsRegisterFile(t.device, ops[1..]);
    }
  }
}
