/** The LIS3DH driver: the byte transfer, register reads and writes, device
    set-up, the identity check and the three axis reads. */
module Driver {
  import opened Lis3dhMap
  import opened Sensor
  import opened Transport
  import opened Framing
  import opened Bus
  import opened Samples
  import opened Hardware

  class Lis3dh {
    const hw: Peripherals

    constructor (hw: Peripherals)
      ensures this.hw == hw
    {
      this.hw := hw;
    }

    /** One busy-wait loop of `SPI_Transfer`: read STATUS until flag `f` shows. */
    method WaitFor(f: Flag)
      requires hw.Valid() && Await(hw.status, hw.polls, f).Some?
      modifies hw`polls, hw`io
      ensures hw.Valid()
      ensures hw.polls == Await(hw.status, old(hw.polls), f).value + 1
      ensures hw.io == old(hw.io) + PollsIo(hw.status, old(hw.polls), hw.polls)
    {
      ghost var feed, from := hw.status, hw.polls;
      ghost var k := Await(feed, from, f).value;
      AwaitIsFirst(feed, from, f);
      var s := hw.ReadStatus();
      while !Raised(s, f)
        invariant hw.Valid()
        invariant from < hw.polls <= k + 1 && s == feed[hw.polls - 1]
        invariant hw.io == old(hw.io) + PollsIo(feed, from, hw.polls)
        decreases k + 1 - hw.polls
      {
        s := hw.ReadStatus();
      }
    }

    /** `SPI_Transfer`: wait for TXBL, write TXDATA, wait for TXC, return RXDATA. */
    method SpiTransfer(data: byte) returns (received: byte)
      requires hw.Valid() && CanTransfer(hw.status, hw.polls, 1)
      modifies hw
      ensures hw.Valid()
      ensures var e := Exchange(old(hw.sensor), data);
              received == e.miso && hw.sensor == e.device
      ensures hw.txdata == data && hw.rxdata == received && hw.csHigh == old(hw.csHigh)
      ensures hw.polls == PollsAfter(hw.status, old(hw.polls), 1)
      ensures hw.trace == old(hw.trace) + [Xfer(data, received)]
      ensures hw.io == old(hw.io) + TransfersIo(hw.status, old(hw.polls), [data], [received])
    {
      ghost var feed, from := hw.status, hw.polls;
      WaitFor(TxBufferLevel);
      hw.WriteTxData(data);
      WaitFor(TxComplete);
      received := hw.ReadRxData();
      assert [data][1..] == [] && [received][1..] == [];
      assert TransfersIo(feed, from, [data], [received]) == TransferIo(feed, from, data, received);
    }

    /** `readRegister`: chip select low, send the read command (discarding what
        comes back), send the filler and keep what comes back, chip select high. */
    method ReadRegister(address: byte) returns (value: byte)
      requires hw.Valid() && CanTransfer(hw.status, hw.polls, 2)
      modifies hw
      ensures hw.Valid() && hw.csHigh
      ensures var t := Transaction(old(hw.sensor), ReadFrame(address));
              && hw.sensor == t.device && value == t.miso[1]
              && hw.trace == old(hw.trace) + FrameTrace(ReadFrame(address), t.miso)
              && hw.io == old(hw.io) + TransfersIo(hw.status, old(hw.polls), ReadFrame(address), t.miso)
      ensures hw.polls == PollsAfter(hw.status, old(hw.polls), 2)
      ensures hw.txdata == DUMMY_DATA && hw.rxdata == value
      ensures old(hw.csHigh) && address < REGISTER_COUNT ==>
                value == old(hw.sensor).regs[address] && hw.sensor == old(hw.sensor)
      ensures old(hw.csHigh) && address >= REGISTER_COUNT ==>
                && value == old(hw.sensor).floating
                && hw.sensor == old(hw.sensor).(regs := old(hw.sensor).regs[address - 0x80 := DUMMY_DATA])
    {
      ghost var feed, from, d := hw.status, hw.polls, hw.sensor;
      PollsAfterSplit(feed, from, 1, 1);
      hw.PinOutClear();
      var junk := SpiTransfer(ReadAddress(address));
      ghost var io1 := hw.io;
      value := SpiTransfer(DUMMY_DATA);
      hw.PinOutSet();
      TransactionPair(d, ReadAddress(address), DUMMY_DATA);
      IoOfFrame(feed, from, ReadAddress(address), DUMMY_DATA, junk, value, old(hw.io), io1, hw.io);
      TraceOfFrame(old(hw.trace), hw.trace, ReadAddress(address), DUMMY_DATA, junk, value);
      if !d.selected && address < REGISTER_COUNT {
        ReadRegisterFrame(d, address);
      } else if !d.selected {
        MisframedRead(d, address);
      }
    }

    /** `writeRegister`: chip select low, send the write command, send the
        value (discarding both replies), chip select high. */
    method WriteRegister(address: byte, data: byte)
      requires hw.Valid() && CanTransfer(hw.status, hw.polls, 2)
      modifies hw
      ensures hw.Valid() && hw.csHigh
      ensures var t := Transaction(old(hw.sensor), WriteFrame(address, data));
              && hw.sensor == t.device
              && hw.trace == old(hw.trace) + FrameTrace(WriteFrame(address, data), t.miso)
              && hw.io == old(hw.io) + TransfersIo(hw.status, old(hw.polls), WriteFrame(address, data), t.miso)
              && hw.rxdata == t.miso[1]
      ensures hw.polls == PollsAfter(hw.status, old(hw.polls), 2)
      ensures hw.txdata == data
      ensures old(hw.csHigh) && address < REGISTER_COUNT ==>
                hw.sensor == old(hw.sensor).(regs := old(hw.sensor).regs[address := data])
      ensures old(hw.csHigh) && address >= REGISTER_COUNT ==> hw.sensor == old(hw.sensor)
    {
      ghost var feed, from, d := hw.status, hw.polls, hw.sensor;
      PollsAfterSplit(feed, from, 1, 1);
      hw.PinOutClear();
      var junk1 := SpiTransfer(WriteAddress(address));
      ghost var io1 := hw.io;
      var junk2 := SpiTransfer(data);
      hw.PinOutSet();
      TransactionPair(d, WriteAddress(address), data);
      IoOfFrame(feed, from, WriteAddress(address), data, junk1, junk2, old(hw.io), io1, hw.io);
      TraceOfFrame(old(hw.trace), hw.trace, WriteAddress(address), data, junk1, junk2);
      if !d.selected && address < REGISTER_COUNT {
        WriteRegisterFrame(d, address, data);
      } else if !d.selected {
        MisframedWrite(d, address, data);
      }
    }

    /** `setupLIS3DH`: CTRL_REG1 := 0x47, then CTRL_REG4 := 0x88. */
    method SetupLis3dh()
      requires hw.Valid() && hw.csHigh && CanTransfer(hw.status, hw.polls, 4)
      modifies hw
      ensures hw.Valid() && hw.csHigh
      ensures hw.sensor == old(hw.sensor).(regs := old(hw.sensor).regs[CTRL_REG1 := CTRL1_CONFIG][CTRL_REG4 := CTRL4_CONFIG])
      ensures var fl := old(hw.sensor).floating;
              hw.trace == old(hw.trace) + FrameTrace(WriteFrame(CTRL_REG1, CTRL1_CONFIG), [fl, fl])
                                        + FrameTrace(WriteFrame(CTRL_REG4, CTRL4_CONFIG), [fl, fl])
      ensures var fl := old(hw.sensor).floating;
              hw.io == old(hw.io) + TransfersIo(hw.status, old(hw.polls),
                                                WriteFrame(CTRL_REG1, CTRL1_CONFIG) + WriteFrame(CTRL_REG4, CTRL4_CONFIG),
                                                [fl, fl] + [fl, fl])
      ensures hw.polls == PollsAfter(hw.status, old(hw.polls), 4)
      ensures hw.txdata == CTRL4_CONFIG && hw.rxdata == old(hw.sensor).floating
    {
      ghost var feed, from, d := hw.status, hw.polls, hw.sensor;
      PollsAfterSplit(feed, from, 2, 2);
      ghost var fl := d.floating;
      WriteRegisterFrame(d, CTRL_REG1, CTRL1_CONFIG);
      WriteRegister(CTRL_REG1, CTRL1_CONFIG);
      ghost var io1 := hw.io;
      WriteRegisterFrame(hw.sensor, CTRL_REG4, CTRL4_CONFIG);
      WriteRegister(CTRL_REG4, CTRL4_CONFIG);
      IoOfTwoFrames(feed, from, WriteFrame(CTRL_REG1, CTRL1_CONFIG), [fl, fl],
                    WriteFrame(CTRL_REG4, CTRL4_CONFIG), [fl, fl], old(hw.io), io1, hw.io);
    }

    /** `delay`, `setupClocks`, `setupGPIO`, `setupUSART`: opaque steps. */
    method Delay(num: int)
      requires hw.Valid()
      modifies hw`csHigh, hw`sensor, hw`trace
      ensures hw.Valid() && hw.csHigh == old(hw.csHigh) && hw.sensor == old(hw.sensor)
      ensures hw.polls == old(hw.polls) && hw.io == old(hw.io)
      ensures hw.trace == old(hw.trace) + [Step(PowerOnDelay(num))]
    {
      hw.Configure(PowerOnDelay(num));
    }

    method SetupClocks()
      requires hw.Valid()
      modifies hw`csHigh, hw`sensor, hw`trace
      ensures hw.Valid() && hw.csHigh == old(hw.csHigh) && hw.sensor == old(hw.sensor)
      ensures hw.polls == old(hw.polls) && hw.io == old(hw.io)
      ensures hw.trace == old(hw.trace) + [Step(ClockSetup)]
    {
      hw.Configure(ClockSetup);
    }

    method SetupGpio()
      requires hw.Valid()
      modifies hw`csHigh, hw`sensor, hw`trace
      ensures hw.Valid() && hw.csHigh && hw.sensor == Deselect(old(hw.sensor))
      ensures hw.polls == old(hw.polls) && hw.io == old(hw.io)
      ensures hw.trace == old(hw.trace) + [Step(GpioSetup)]
    {
      hw.Configure(GpioSetup);
    }

    method SetupUsart()
      requires hw.Valid()
      modifies hw`csHigh, hw`sensor, hw`trace
      ensures hw.Valid() && hw.csHigh == old(hw.csHigh) && hw.sensor == old(hw.sensor)
      ensures hw.polls == old(hw.polls) && hw.io == old(hw.io)
      ensures hw.trace == old(hw.trace) + [Step(UsartSetup)]
    {
      hw.Configure(UsartSetup);
    }

    /** `initialize`: power-on delay, clocks, pins, USART, then the device
        profile; it reports success unconditionally. */
    method Initialize() returns (ok: bool)
      requires hw.Valid() && CanTransfer(hw.status, hw.polls, 4)
      modifies hw
      ensures ok
      ensures hw.Valid() && hw.csHigh
      ensures var d := Deselect(old(hw.sensor));
              hw.sensor == d.(regs := d.regs[CTRL_REG1 := CTRL1_CONFIG][CTRL_REG4 := CTRL4_CONFIG])
      ensures var fl := old(hw.sensor).floating;
              hw.trace == old(hw.trace)
                          + [Step(PowerOnDelay(5)), Step(ClockSetup), Step(GpioSetup), Step(UsartSetup)]
                          + FrameTrace(WriteFrame(CTRL_REG1, CTRL1_CONFIG), [fl, fl])
                          + FrameTrace(WriteFrame(CTRL_REG4, CTRL4_CONFIG), [fl, fl])
      ensures var fl := old(hw.sensor).floating;
              hw.io == old(hw.io) + TransfersIo(hw.status, old(hw.polls),
                                                WriteFrame(CTRL_REG1, CTRL1_CONFIG) + WriteFrame(CTRL_REG4, CTRL4_CONFIG),
                                                [fl, fl] + [fl, fl])
      ensures hw.polls == PollsAfter(hw.status, old(hw.polls), 4)
      ensures hw.txdata == CTRL4_CONFIG && hw.rxdata == old(hw.sensor).floating
    {
      Delay(5);
      SetupClocks();
      SetupGpio();
      SetupUsart();
      SetupLis3dh();
      ok := true;
    }

    /** `selfTest`: one read of WHO_AM_I, compared with 0x33. */
    method SelfTest() returns (ok: bool)
      requires hw.Valid() && hw.csHigh && CanTransfer(hw.status, hw.polls, 2)
      modifies hw
      ensures ok <==> old(hw.sensor).regs[WHO_AM_I] == IDENTITY
      ensures hw.Valid() && hw.csHigh && hw.sensor == old(hw.sensor)
      ensures hw.trace == old(hw.trace)
                          + FrameTrace(ReadFrame(WHO_AM_I), [old(hw.sensor).floating, old(hw.sensor).regs[WHO_AM_I]])
      ensures hw.io == old(hw.io) + TransfersIo(hw.status, old(hw.polls), ReadFrame(WHO_AM_I),
                                                [old(hw.sensor).floating, old(hw.sensor).regs[WHO_AM_I]])
      ensures hw.polls == PollsAfter(hw.status, old(hw.polls), 2)
      ensures hw.txdata == DUMMY_DATA && hw.rxdata == old(hw.sensor).regs[WHO_AM_I]
    {
      ReadRegisterFrame(hw.sensor, WHO_AM_I);
      var result := ReadRegister(WHO_AM_I);
      if result == 0x33 {
        ok := true;
      } else {
        ok := false;
      }
    }

    /** The raw-sample part of each `get?Acceleration`: read the low register,
        then the high one, and assemble the 16-bit value. */
    method ReadRawSample(lowReg: byte, highReg: byte) returns (raw: int)
      requires lowReg < REGISTER_COUNT && highReg < REGISTER_COUNT
      requires hw.Valid() && hw.csHigh && CanTransfer(hw.status, hw.polls, 4)
      modifies hw
      ensures raw == RawSample(old(hw.sensor).regs[highReg], old(hw.sensor).regs[lowReg])
      ensures hw.Valid() && hw.csHigh && hw.sensor == old(hw.sensor)
      ensures var d := old(hw.sensor);
              hw.trace == old(hw.trace) + FrameTrace(ReadFrame(lowReg), [d.floating, d.regs[lowReg]])
                                        + FrameTrace(ReadFrame(highReg), [d.floating, d.regs[highReg]])
      ensures var d := old(hw.sensor);
              hw.io == old(hw.io) + TransfersIo(hw.status, old(hw.polls), ReadFrame(lowReg) + ReadFrame(highReg),
                                                [d.floating, d.regs[lowReg]] + [d.floating, d.regs[highReg]])
      ensures hw.polls == PollsAfter(hw.status, old(hw.polls), 4)
      ensures hw.txdata == DUMMY_DATA && hw.rxdata == old(hw.sensor).regs[highReg]
    {
      ghost var feed, from, d := hw.status, hw.polls, hw.sensor;
      PollsAfterSplit(feed, from, 2, 2);
      ReadRegisterFrame(d, lowReg);
      ReadRegisterFrame(d, highReg);
      var lowByte := ReadRegister(lowReg);
      ghost var io1 := hw.io;
      var highByte := ReadRegister(highReg);
      raw := RawSample(highByte, lowByte);
      IoOfTwoFrames(feed, from, ReadFrame(lowReg), [d.floating, lowByte],
                    ReadFrame(highReg), [d.floating, highByte], old(hw.io), io1, hw.io);
    }

    /** `getXAcceleration`: OUT_X_L, OUT_X_H, converted to g. */
    method GetXAcceleration() returns (accel: real)
      requires hw.Valid() && hw.csHigh && CanTransfer(hw.status, hw.polls, 4)
      modifies hw
      ensures accel == ReadingToAccel(RawSample(old(hw.sensor).regs[OUT_X_H], old(hw.sensor).regs[OUT_X_L]))
      ensures hw.Valid() && hw.csHigh && hw.sensor == old(hw.sensor)
      ensures var d := old(hw.sensor);
              hw.trace == old(hw.trace) + FrameTrace(ReadFrame(OUT_X_L), [d.floating, d.regs[OUT_X_L]])
                                        + FrameTrace(ReadFrame(OUT_X_H), [d.floating, d.regs[OUT_X_H]])
      ensures var d := old(hw.sensor);
              hw.io == old(hw.io) + TransfersIo(hw.status, old(hw.polls), ReadFrame(OUT_X_L) + ReadFrame(OUT_X_H),
                                                [d.floating, d.regs[OUT_X_L]] + [d.floating, d.regs[OUT_X_H]])
      ensures hw.polls == PollsAfter(hw.status, old(hw.polls), 4)
      ensures hw.txdata == DUMMY_DATA && hw.rxdata == old(hw.sensor).regs[OUT_X_H]
    {
      var raw := ReadRawSample(OUT_X_L, OUT_X_H);
      accel := ReadingToAccel(raw);
    }

    /** `getYAcceleration`: OUT_Y_L, OUT_Y_H, converted to g. */
    method GetYAcceleration() returns (accel: real)
      requires hw.Valid() && hw.csHigh && CanTransfer(hw.status, hw.polls, 4)
      modifies hw
      ensures accel == ReadingToAccel(RawSample(old(hw.sensor).regs[OUT_Y_H], old(hw.sensor).regs[OUT_Y_L]))
      ensures hw.Valid() && hw.csHigh && hw.sensor == old(hw.sensor)
      ensures var d := old(hw.sensor);
              hw.trace == old(hw.trace) + FrameTrace(ReadFrame(OUT_Y_L), [d.floating, d.regs[OUT_Y_L]])
                                        + FrameTrace(ReadFrame(OUT_Y_H), [d.floating, d.regs[OUT_Y_H]])
      ensures var d := old(hw.sensor);
              hw.io == old(hw.io) + TransfersIo(hw.status, old(hw.polls), ReadFrame(OUT_Y_L) + ReadFrame(OUT_Y_H),
                                                [d.floating, d.regs[OUT_Y_L]] + [d.floating, d.regs[OUT_Y_H]])
      ensures hw.polls == PollsAfter(hw.status, old(hw.polls), 4)
      ensures hw.txdata == DUMMY_DATA && hw.rxdata == old(hw.sensor).regs[OUT_Y_H]
    {
      var raw := ReadRawSample(OUT_Y_L, OUT_Y_H);
      accel := ReadingToAccel(raw);
    }

    /** `getZAcceleration`: OUT_Z_L, OUT_Z_H, converted to g. */
    method GetZAcceleration() returns (accel: real)
      requires hw.Valid() && hw.csHigh && CanTransfer(hw.status, hw.polls, 4)
      modifies hw
      ensures accel == ReadingToAccel(RawSample(old(hw.sensor).regs[OUT_Z_H], old(hw.sensor).regs[OUT_Z_L]))
      ensures hw.Valid() && hw.csHigh && hw.sensor == old(hw.sensor)
      ensures var d := old(hw.sensor);
              hw.trace == old(hw.trace) + FrameTrace(ReadFrame(OUT_Z_L), [d.floating, d.regs[OUT_Z_L]])
                                        + FrameTrace(ReadFrame(OUT_Z_H), [d.floating, d.regs[OUT_Z_H]])
      ensures var d := old(hw.sensor);
              hw.io == old(hw.io) + TransfersIo(hw.status, old(hw.polls), ReadFrame(OUT_Z_L) + ReadFrame(OUT_Z_H),
                                                [d.floating, d.regs[OUT_Z_L]] + [d.floating, d.regs[OUT_Z_H]])
      ensures hw.polls == PollsAfter(hw.status, old(hw.polls), 4)
      ensures hw.txdata == DUMMY_DATA && hw.rxdata == old(hw.sensor).regs[OUT_Z_H]
    {
      var raw := ReadRawSample(OUT_Z_L, OUT_Z_H);
      accel := ReadingToAccel(raw);
    }
  }

  /** Two consecutive frames leave the accesses of both, in order. */
  lemma IoOfTwoFrames(feed: seq<bv32>, from: nat, m1: seq<byte>, r1: seq<byte>, m2: seq<byte>, r2: seq<byte>,
                      io0: seq<Access>, io1: seq<Access>, io2: seq<Access>)
    requires |m1| == |r1| == 2 && |m2| == |r2| == 2 && CanTransfer(feed, from, 4)
    requires CanTransfer(feed, from, 2) && CanTransfer(feed, PollsAfter(feed, from, 2), 2)
    requires io1 == io0 + TransfersIo(feed, from, m1, r1)
    requires io2 == io1 + TransfersIo(feed, PollsAfter(feed, from, 2), m2, r2)
    ensures io2 == io0 + TransfersIo(feed, from, m1 + m2, r1 + r2)
  {
    TransfersIoAppend(feed, from, m1, r1, m2, r2);
    AppendAssoc(io0, TransfersIo(feed, from, m1, r1), TransfersIo(feed, PollsAfter(feed, from, 2), m2, r2));
  }

  /** The accesses of a two-byte frame are those of its two transfers. */
  lemma IoOfFrame(feed: seq<bv32>, from: nat, x: byte, y: byte, j: byte, v: byte,
                  io0: seq<Access>, io1: seq<Access>, io2: seq<Access>)
    requires CanTransfer(feed, from, 2)
    requires CanTransfer(feed, from, 1) && CanTransfer(feed, PollsAfter(feed, from, 1), 1)
    requires io1 == io0 + TransfersIo(feed, from, [x], [j])
    requires io2 == io1 + TransfersIo(feed, PollsAfter(feed, from, 1), [y], [v])
    ensures io2 == io0 + TransfersIo(feed, from, [x, y], [j, v])
  {
    TransfersIoAppend(feed, from, [x], [j], [y], [v]);
    assert [x] + [y] == [x, y] && [j] + [v] == [j, v];
    AppendAssoc(io0, TransfersIo(feed, from, [x], [j]), TransfersIo(feed, PollsAfter(feed, from, 1), [y], [v]));
  }

  /** The bus trace of a two-byte frame. */
  lemma TraceOfFrame(t0: seq<Event>, t: seq<Event>, x: byte, y: byte, j: byte, v: byte)
    requires t == t0 + [CSLow] + [Xfer(x, j)] + [Xfer(y, v)] + [CSHigh]
    ensures t == t0 + FrameTrace([x, y], [j, v])
  {
    assert Xfers([x, y], [j, v]) == [Xfer(x, j), Xfer(y, v)];
  }
}
