/** The direction-switch sequences the engine's primitives issue, and what
    they put on the wire. */
module Waveform {
  import opened Bus
  import opened Bits

  /** `i2c_start`: SDA low, then SCL low. */
  function StartOps(): (ops: seq<LineOp>)
    ensures forall l :: After(l, Run(l, ops)) == Lines(false, false)
  {
    [DriveSdaLow, DriveSclLow]
  }

  /** `i2c_stop`: SCL released, then SDA released. */
  function StopOps(): (ops: seq<LineOp>)
    ensures forall l :: After(l, Run(l, ops)) == Idle
  {
    [ReleaseScl, ReleaseSda]
  }

  /** `i2c_repeat`: SCL released, SDA low, SCL low. */
  function RepeatOps(): (ops: seq<LineOp>)
    ensures forall l :: After(l, Run(l, ops)) == Lines(false, false)
  {
    [ReleaseScl, DriveSdaLow, DriveSclLow]
  }

  /** One data bit: SDA set to the bit, then one clock pulse. */
  function BitOps(b: bool): seq<LineOp>
  {
    [if b then ReleaseSda else DriveSdaLow, ReleaseScl, DriveSclLow]
  }

  /** Data bits in order, one clock pulse each. */
  function BitsOps(bits: seq<bool>): (ops: seq<LineOp>)
    ensures |ops| == 3 * |bits|
    decreases |bits|
  {
    if bits == [] then [] else BitsOps(bits[..|bits| - 1]) + BitOps(bits[|bits| - 1])
  }

  /** One more data bit, switch by switch. */
  lemma BitsOpsSnoc(bits: seq<bool>, i: nat, op: LineOp)
    requires i < |bits| && op == (if bits[i] then ReleaseSda else DriveSdaLow)
    ensures BitsOps(bits[..i + 1]) == BitsOps(bits[..i]) + [op] + [ReleaseScl] + [DriveSclLow]
  {
    assert bits[..i + 1][..i] == bits[..i];
  }

  /** The acknowledge clock: SDA released for the receiver, then one clock pulse. */
  function AckOps(): seq<LineOp>
  {
    [ReleaseSda, ReleaseScl, DriveSclLow]
  }

  /** `i2c_write(c)`: the eight low bits of `c`, most significant first, then the acknowledge clock. */
  function ByteOps(c: int): (ops: seq<LineOp>)
    ensures |ops| == 27
  {
    BitsOps(ByteBits(c)) + AckOps()
  }

  /** A byte write, switch by switch after its data bits. */
  lemma ByteOpsSplit(c: int)
    ensures ByteOps(c) == BitsOps(ByteBits(c)) + [ReleaseSda] + [ReleaseScl] + [DriveSclLow]
  {
  }

  /** `write(data)`: start, address byte with the write bit, data byte, stop. */
  function TransactionOps(address: int, data: int): (ops: seq<LineOp>)
    ensures |ops| == 58
  {
    StartOps() + ByteOps(address * 2) + ByteOps(data) + StopOps()
  }

  /** What a receiver samples from one transaction, as the master leaves SDA:
      the address byte, its acknowledge clock, the data byte, its acknowledge
      clock, and the clock edge of the stop (SDA already released). */
  function TransactionBits(address: int, data: int): (bits: seq<bool>)
    ensures |bits| == 19
  {
    ByteBits(address * 2) + [true] + ByteBits(data) + [true] + [true]
  }

  /** From construction (both lines released), a start drives SDA low while SCL
      is still released, a START condition, and then leaves both lines low. */
  lemma StartFromIdle()
    ensures var tr := Run(Idle, StartOps());
            IsStart(Idle, tr[0]) && !tr[1].sclReleased &&
            Starts(Idle, tr) == 1 && Stops(Idle, tr) == 0 && Samples(Idle, tr) == [] &&
            After(Idle, tr) == Lines(false, false)
  {
    var tr := Run(Idle, StartOps());
    assert tr == [Lines(true, false), Lines(false, false)];
    assert tr[1..] == [Lines(false, false)] && tr[1..][1..] == [];
    assert Starts(tr[1], []) == 0 && Stops(tr[1], []) == 0 && Samples(tr[1], []) == [];
  }

  /** A stop releases both lines, whatever they were. After a byte write (SCL
      low, SDA released) it holds no STOP condition: SDA is already high when
      SCL is released, so it never rises while SCL is high. */
  lemma StopWaveform(l: Lines)
    ensures After(l, Run(l, StopOps())) == Idle
    ensures l == Lines(false, true) ==>
              Stops(l, Run(l, StopOps())) == 0 && Starts(l, Run(l, StopOps())) == 0 &&
              Samples(l, Run(l, StopOps())) == [true]
  {
    var tr := Run(l, StopOps());
    assert tr == [l.(sclReleased := true), Idle];
    assert tr[1..] == [Idle] && tr[1..][1..] == [];
    assert Starts(Idle, []) == 0 && Stops(Idle, []) == 0 && Samples(Idle, []) == [];
  }

  /** After a byte write, a repeated start makes one START condition and
      leaves both lines low. */
  lemma RepeatAfterByte()
    ensures var l := Lines(false, true);
            var tr := Run(l, RepeatOps());
            IsStart(tr[0], tr[1]) && Starts(l, tr) == 1 && Stops(l, tr) == 0 &&
            After(l, tr) == Lines(false, false)
  {
    var l := Lines(false, true);
    Run3(l, ReleaseScl, DriveSdaLow, DriveSclLow);
    Observe3(l, Idle, Lines(true, false), Lines(false, false));
  }

  /** One data-bit clock pulse entered with SCL low. */
  lemma BitPulse(m: Lines, b: bool)
    requires !m.sclReleased
    ensures var tr := Run(m, BitOps(b));
            Samples(m, tr) == [b] && SdaStableWhileSclHigh(m, tr) &&
            After(m, tr) == Lines(false, b)
  {
    Run3(m, if b then ReleaseSda else DriveSdaLow, ReleaseScl, DriveSclLow);
    Observe3(m, Lines(false, b), Lines(true, b), Lines(false, b));
  }

  /** With SCL low on entry, the data bits are sampled in order at the rising
      edges, SDA moves only while SCL is low, and SCL ends low. */
  lemma {:induction false} BitsWaveform(l: Lines, bits: seq<bool>)
    requires !l.sclReleased
    ensures var tr := Run(l, BitsOps(bits));
            Samples(l, tr) == bits &&
            SdaStableWhileSclHigh(l, tr) &&
            !After(l, tr).sclReleased
    decreases |bits|
  {
    if bits != [] {
      var init, b := bits[..|bits| - 1], bits[|bits| - 1];
      assert bits == init + [b];
      BitsWaveform(l, init);
      RunAppend(l, BitsOps(init), BitOps(b));
      var tr0 := Run(l, BitsOps(init));
      var m := After(l, tr0);
      var tr1 := Run(m, BitOps(b));
      assert Run(l, BitsOps(bits)) == tr0 + tr1;
      BitPulse(m, b);
      SamplesAppend(l, tr0, tr1);
      StableAppend(l, tr0, tr1);
      AfterAppend(l, tr0, tr1);
    } else {
      assert Run(l, []) == [];
    }
  }

  /** `i2c_write` entered with SCL low: the nine rising edges of SCL carry the
      low byte of `c` most significant bit first and then the released SDA of
      the acknowledge clock; SDA moves only while SCL is low (so the byte holds
      no START or STOP condition); it returns with SCL low and SDA released. */
  lemma ByteWaveform(l: Lines, c: int)
    requires !l.sclReleased
    ensures var tr := Run(l, ByteOps(c));
            Samples(l, tr) == ByteBits(c) + [true] &&
            SdaStableWhileSclHigh(l, tr) &&
            Starts(l, tr) == 0 && Stops(l, tr) == 0 &&
            After(l, tr) == Lines(false, true)
  {
    var bits := ByteBits(c);
    BitsWaveform(l, bits);
    RunAppend(l, BitsOps(bits), AckOps());
    var tr0 := Run(l, BitsOps(bits));
    var m := After(l, tr0);
    Run3(m, ReleaseSda, ReleaseScl, DriveSclLow);
    Observe3(m, Lines(false, true), Lines(true, true), Lines(false, true));
    ObserveAppend(l, tr0, Run(m, AckOps()));
    StableHasNoConditions(l, Run(l, ByteOps(c)));
  }

  /** The bit `i2c_write` tests in round `i` (bit 7 of `c` shifted left `i`
      times) is the `i`-th bit on the wire. */
  lemma WireBit(c: int, i: nat)
    requires i < 8
    ensures Bit(Shl(c, i), 7) == ByteBits(c)[i]
  {
    ShlBit(c, i, 7 - i);
    LowBitsAt(c, 8, i);
  }

  /** The k-th clock pulse of a byte write carries bit 7 - k of `c`, for the
      eight data pulses; the ninth carries the released SDA. */
  lemma ByteBitOrder(l: Lines, c: int)
    requires !l.sclReleased
    ensures var s := Samples(l, Run(l, ByteOps(c)));
            |s| == 9 && s[8] &&
            forall k :: 0 <= k < 8 ==> s[k] == Bit(c, 7 - k)
  {
    ByteWaveform(l, c);
    forall k | 0 <= k < 8
      ensures ByteBits(c)[k] == Bit(c, 7 - k)
    {
      LowBitsAt(c, 8, k);
    }
  }

  /** Start and address byte from the idle bus. */
  lemma AddressPhase(address: int)
    ensures var tr := Run(Idle, StartOps() + ByteOps(address * 2));
            IsStart(Idle, tr[0]) &&
            Starts(Idle, tr) == 1 && Stops(Idle, tr) == 0 &&
            Samples(Idle, tr) == ByteBits(address * 2) + [true] &&
            After(Idle, tr) == Lines(false, true)
  {
    var s, a := StartOps(), ByteOps(address * 2);
    StartFromIdle();
    RunAppend(Idle, s, a);
    ObserveAppend(Idle, Run(Idle, s), Run(Lines(false, false), a));
    ByteWaveform(Lines(false, false), address * 2);
  }

  /** Data byte and stop, entered as a byte write leaves the bus. */
  lemma DataPhase(data: int)
    ensures var l := Lines(false, true);
            var tr := Run(l, ByteOps(data) + StopOps());
            Starts(l, tr) == 0 && Stops(l, tr) == 0 &&
            Samples(l, tr) == ByteBits(data) + [true] + [true] &&
            After(l, tr) == Idle
  {
    var l, d, p := Lines(false, true), ByteOps(data), StopOps();
    RunAppend(l, d, p);
    ObserveAppend(l, Run(l, d), Run(l, p));
    ByteWaveform(l, data);
    StopWaveform(l);
  }

  /** A transaction is the address phase followed by the data phase. */
  lemma TransactionSplit(address: int, data: int)
    ensures Run(Idle, TransactionOps(address, data)) ==
            Run(Idle, StartOps() + ByteOps(address * 2)) + Run(Lines(false, true), ByteOps(data) + StopOps())
    ensures TransactionBits(address, data) ==
            (ByteBits(address * 2) + [true]) + (ByteBits(data) + [true] + [true])
  {
    var s, a, d, p := StartOps(), ByteOps(address * 2), ByteOps(data), StopOps();
    assert s + a + d + p == (s + a) + (d + p);
    AddressPhase(address);
    RunAppend(Idle, s + a, d + p);
  }

  /** A complete `write` from the idle bus: exactly one START condition, at the
      first switch; the address byte with the write bit and the data byte
      sampled in order; no STOP condition; both lines released at the end. */
  lemma TransactionWaveform(address: int, data: int)
    ensures var tr := Run(Idle, TransactionOps(address, data));
            IsStart(Idle, tr[0]) &&
            Starts(Idle, tr) == 1 && Stops(Idle, tr) == 0 &&
            Samples(Idle, tr) == TransactionBits(address, data) &&
            After(Idle, tr) == Idle
  {
    var tr1 := Run(Idle, StartOps() + ByteOps(address * 2));
    var tr2 := Run(Lines(false, true), ByteOps(data) + StopOps());
    TransactionSplit(address, data);
    AddressPhase(address);
    DataPhase(data);
    ObserveAppend(Idle, tr1, tr2);
    assert (tr1 + tr2)[0] == tr1[0];
  }

  /** The parts of `parts`, one after the other. */
  function Flatten<T>(parts: seq<seq<T>>): seq<T>
    decreases |parts|
  {
    if parts == [] then [] else parts[0] + Flatten(parts[1..])
  }

  /** Flattening distributes over joining the lists of parts. */
  lemma {:induction false} FlattenAppend<T>(x: seq<seq<T>>, y: seq<seq<T>>)
    ensures Flatten(x + y) == Flatten(x) + Flatten(y)
    decreases |x|
  {
    if x != [] {
      FlattenAppend(x[1..], y);
      assert (x + y)[0] == x[0] && (x + y)[1..] == x[1..] + y;
    } else {
      assert x + y == y;
    }
  }

  /** The switches of one `write` call per byte. */
  function Transactions(address: int, ws: seq<bv8>): (ts: seq<seq<LineOp>>)
    ensures |ts| == |ws|
  {
    seq(|ws|, k requires 0 <= k < |ws| => TransactionOps(address, ws[k] as int))
  }

  /** One `write` call per byte, in order, to the same device. */
  function WritesOps(address: int, ws: seq<bv8>): seq<LineOp>
  {
    Flatten(Transactions(address, ws))
  }

  /** What a receiver samples from one `write` per byte. */
  function WritesBits(address: int, ws: seq<bv8>): seq<bool>
  {
    Flatten(seq(|ws|, k requires 0 <= k < |ws| => TransactionBits(address, ws[k] as int)))
  }

  /** The first write, then the others. */
  lemma WritesCons(address: int, ws: seq<bv8>)
    requires ws != []
    ensures WritesOps(address, ws) == TransactionOps(address, ws[0] as int) + WritesOps(address, ws[1..])
    ensures WritesBits(address, ws) == TransactionBits(address, ws[0] as int) + WritesBits(address, ws[1..])
  {
    var ts := Transactions(address, ws);
    assert ts[1..] == Transactions(address, ws[1..]);
    var bs := seq(|ws|, k requires 0 <= k < |ws| => TransactionBits(address, ws[k] as int));
    assert bs[1..] == seq(|ws| - 1, k requires 0 <= k < |ws| - 1 => TransactionBits(address, ws[1..][k] as int));
  }

  /** Consecutive writes from the idle bus: one START condition per write, the
      bytes sampled in order, and the bus idle again at the end. */
  lemma {:induction false} WritesWaveform(address: int, ws: seq<bv8>)
    ensures var tr := Run(Idle, WritesOps(address, ws));
            Starts(Idle, tr) == |ws| && Stops(Idle, tr) == 0 &&
            Samples(Idle, tr) == WritesBits(address, ws) &&
            After(Idle, tr) == Idle
    decreases |ws|
  {
    if ws != [] {
      var first, rest := TransactionOps(address, ws[0] as int), WritesOps(address, ws[1..]);
      WritesCons(address, ws);
      WritesWaveform(address, ws[1..]);
      TransactionWaveform(address, ws[0] as int);
      RunAppend(Idle, first, rest);
      ObserveAppend(Idle, Run(Idle, first), Run(Idle, rest));
    } else {
      assert WritesOps(address, ws) == [] && WritesBits(address, ws) == [];
      assert Run(Idle, []) == [];
    }
  }

  /** Writing `x` and then `y` is writing `x + y`; since every run of writes
      ends idle, the bus trace of `x + y` is that of `x` then that of `y`. */
  lemma WritesAppend(address: int, x: seq<bv8>, y: seq<bv8>)
    ensures WritesOps(address, x + y) == WritesOps(address, x) + WritesOps(address, y)
    ensures Run(Idle, WritesOps(address, x + y)) ==
            Run(Idle, WritesOps(address, x)) + Run(Idle, WritesOps(address, y))
  {
    assert Transactions(address, x + y) == Transactions(address, x) + Transactions(address, y);
    FlattenAppend(Transactions(address, x), Transactions(address, y));
    WritesWaveform(address, x);
    RunAppend(Idle, WritesOps(address, x), WritesOps(address, y));
  }

  /** A recorded trace `t` that ends with a run of writes grows by a run of more writes. */
  lemma MoreWrites(t0: seq<Lines>, t: seq<Lines>, address: int, done: seq<bv8>, w: seq<bv8>)
    requires t == t0 + Run(Idle, WritesOps(address, done))
    ensures t + Run(Idle, WritesOps(address, w)) == t0 + Run(Idle, WritesOps(address, done + w))
  {
    WritesAppend(address, done, w);
    Grow(t0, t, Run(Idle, WritesOps(address, done)), Run(Idle, WritesOps(address, w)), Run(Idle, WritesOps(address, done + w)));
  }

  /** A recorded trace `t` that ends with a run of writes grows by one more `write`. */
  lemma WriteOneMore(t0: seq<Lines>, t: seq<Lines>, address: int, done: seq<bv8>, w: bv8)
    requires t == t0 + Run(Idle, WritesOps(address, done))
    ensures t + Run(Idle, TransactionOps(address, w as int)) == t0 + Run(Idle, WritesOps(address, done + [w]))
  {
    MoreWrites(t0, t, address, done, [w]);
    SingleWrite(address, w);
  }

  /** One byte is one transaction. */
  lemma SingleWrite(address: int, w: bv8)
    ensures WritesOps(address, [w]) == TransactionOps(address, w as int)
  {
    WritesCons(address, [w]);
    assert [w][1..] == [];
    assert WritesOps(address, []) == [];
  }
}
