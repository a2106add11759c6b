/** The software I2C master: class `I2C`, which drives SCL and SDA by
    switching each pin between input mode (released) and output mode (low). */
module SoftI2C {
  import opened Bus
  import opened Bits
  import opened Waveform

  class I2C {
    /** SCL: released (input mode) or driven low (output mode). */
    var sclReleased: bool
    /** SDA: released (input mode) or driven low (output mode). */
    var sdaReleased: bool
    /** The device address given at construction. */
    const address: int
    /** Every bus snapshot since construction, one after each direction switch. */
    ghost var trace: seq<Lines>

    /** The two lines as the pin directions leave them. */
    function State(): Lines
      reads this
    {
      Lines(sclReleased, sdaReleased)
    }

    /** The last snapshot of the trace is the bus as it is now. */
    ghost predicate Valid()
      reads this
    {
      |trace| > 0 && trace[|trace| - 1] == State()
    }

    /** `init_i2c`: both pins to input mode, so both lines released; their
        output latches are cleared, so a later switch to output drives low. */
    constructor (address: int)
      ensures Valid() && this.address == address
      ensures State() == Idle && trace == [Idle]
    {
      this.address := address;
      sclReleased, sdaReleased := true, true;
      trace := [Idle];
    }

    /** `i2c_cl_0`: SCL to output mode, driving it low. */
    method ClockLow()
      requires Valid()
      modifies this
      ensures Valid() && State() == Step(old(State()), DriveSclLow)
      ensures trace == old(trace) + [State()]
    {
      sclReleased := false;
      trace := trace + [State()];
    }

    /** `i2c_cl_1`: SCL to input mode, releasing it. */
    method ClockRelease()
      requires Valid()
      modifies this
      ensures Valid() && State() == Step(old(State()), ReleaseScl)
      ensures trace == old(trace) + [State()]
    {
      sclReleased := true;
      trace := trace + [State()];
    }

    /** `i2c_da_0`: SDA to output mode, driving it low. */
    method DataLow()
      requires Valid()
      modifies this
      ensures Valid() && State() == Step(old(State()), DriveSdaLow)
      ensures trace == old(trace) + [State()]
    {
      sdaReleased := false;
      trace := trace + [State()];
    }

    /** `i2c_da_1`: SDA to input mode, releasing it. */
    method DataRelease()
      requires Valid()
      modifies this
      ensures Valid() && State() == Step(old(State()), ReleaseSda)
      ensures trace == old(trace) + [State()]
    {
      sdaReleased := true;
      trace := trace + [State()];
    }

    /** `i2c_get_da`: the level of SDA. The line is open-drain, so it reads
        high only when neither the master nor the device (`deviceSda` is the
        device's side of the line) pulls it low. */
    method ReadData(deviceSda: bool) returns (high: bool)
      ensures high <==> sdaReleased && deviceSda
    {
      high := sdaReleased && deviceSda;
    }

    /** `i2c_start`. */
    method Start()
      requires Valid()
      modifies this
      ensures Valid() && trace == old(trace) + Run(old(State()), StartOps())
      ensures State() == After(old(State()), Run(old(State()), StartOps()))
    {
      ghost var l0 := State();
      DataLow();
      RunSnoc(l0, [], DriveSdaLow);
      ClockLow();
      RunSnoc(l0, [DriveSdaLow], DriveSclLow);
    }

    /** `i2c_stop`. */
    method Stop()
      requires Valid()
      modifies this
      ensures Valid() && trace == old(trace) + Run(old(State()), StopOps())
      ensures State() == Idle
    {
      ghost var l0 := State();
      ClockRelease();
      RunSnoc(l0, [], ReleaseScl);
      DataRelease();
      RunSnoc(l0, [ReleaseScl], ReleaseSda);
    }

    /** `i2c_repeat`. */
    method Repeat()
      requires Valid()
      modifies this
      ensures Valid() && trace == old(trace) + Run(old(State()), RepeatOps())
      ensures State() == Lines(false, false)
    {
      ghost var l0 := State();
      ClockRelease();
      RunSnoc(l0, [], ReleaseScl);
      DataLow();
      RunSnoc(l0, [ReleaseScl], DriveSdaLow);
      ClockLow();
      RunSnoc(l0, [ReleaseScl, DriveSdaLow], DriveSclLow);
    }

    /** `i2c_write`: eight data bits, bit 7 of the shifted `c` each time, then
        the acknowledge clock, whose SDA level is returned: true is a NACK. */
    method WriteByte(c: int, deviceSda: bool) returns (nack: bool)
      requires Valid()
      modifies this
      ensures Valid() && trace == old(trace) + Run(old(State()), ByteOps(c))
      ensures State() == Lines(false, true)
      ensures nack == deviceSda
    {
      ghost var l0, t0 := State(), trace;
      ghost var bits := ByteBits(c);
      var d := c;
      for i := 0 to 8
        invariant Valid()
        invariant d == Shl(c, i)
        invariant trace == t0 + Run(l0, BitsOps(bits[..i]))
        invariant State() == After(l0, Run(l0, BitsOps(bits[..i])))
      {
        ghost var done := BitsOps(bits[..i]);
        WireBit(c, i);
        var op := if Bit(d, 7) then ReleaseSda else DriveSdaLow;
        Extend(t0, l0, done, trace, op);
        if Bit(d, 7) {
          DataRelease();
        } else {
          DataLow();
        }
        d := d * 2;
        Extend(t0, l0, done + [op], trace, ReleaseScl);
        ClockRelease();
        Extend(t0, l0, done + [op] + [ReleaseScl], trace, DriveSclLow);
        ClockLow();
        BitsOpsSnoc(bits, i, op);
      }
      ghost var done := BitsOps(bits);
      assert bits[..8] == bits;
      Extend(t0, l0, done, trace, ReleaseSda);
      DataRelease();
      Extend(t0, l0, done + [ReleaseSda], trace, ReleaseScl);
      ClockRelease();
      nack := ReadData(deviceSda);
      Extend(t0, l0, done + [ReleaseSda] + [ReleaseScl], trace, DriveSclLow);
      ClockLow();
      ByteOpsSplit(c);
    }

    /** `write`: one transaction to the device, start, address byte (the
        address shifted left, write bit clear), data byte, stop. Both
        acknowledge levels are read and discarded. */
    method Write(data: int, deviceSda: bool)
      requires Valid()
      modifies this
      ensures Valid() && trace == old(trace) + Run(old(State()), TransactionOps(address, data))
      ensures State() == Idle
    {
      ghost var l0, t0 := State(), trace;
      ghost var s, a, d, p := StartOps(), ByteOps(address * 2), ByteOps(data), StopOps();
      Start();
      ghost var t1 := trace;
      var _ := WriteByte(address * 2, deviceSda);
      RunAppend(l0, s, a);
      Grow(t0, t1, Run(l0, s), Run(After(l0, Run(l0, s)), a), Run(l0, s + a));
      ghost var t2 := trace;
      var _ := WriteByte(data, deviceSda);
      RunAppend(l0, s + a, d);
      Grow(t0, t2, Run(l0, s + a), Run(After(l0, Run(l0, s + a)), d), Run(l0, s + a + d));
      ghost var t3, l3 := trace, State();
      Stop();
      RunAppend(l0, s + a + d, p);
      Grow(t0, t3, Run(l0, s + a + d), Run(l3, p), Run(l0, s + a + d + p));
    }
  }
}
