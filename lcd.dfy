/** The HD44780 character display behind a PCF8574 expander, driven in its
    4-bit interface: every display byte becomes six expander writes. On the
    expander port, bit 0 is the register select (command or character), bit 1
    read/write (kept at write), bit 2 the enable strobe, bit 3 the backlight,
    and bits 4 to 7 carry one nibble. */
module Lcd {
  import opened Bus
  import opened Waveform
  import opened SoftI2C

  /** The expander's 7-bit bus address. */
  const LcdAddress: int := 0x27
  /** Register select: command. */
  const LcdCmd: bv8 := 0
  /** Register select: character data. */
  const LcdChr: bv8 := 1
  const LcdBacklight: bv8 := 0x08
  const Enable: bv8 := 0x04
  /** Read/write select: set for a read cycle. */
  const ReadWrite: bv8 := 0x02

  /** The byte a display receives from the high-nibble write `hi` and the
      low-nibble write `lo`. */
  function Received(hi: bv8, lo: bv8): bv8
  {
    (hi & 0xF0) | (lo >> 4)
  }

  /** `lcd_byte(bits, mode)`: the high nibble with the enable strobe pulsed
      (off, on, off), then the low nibble the same way. Every write keeps the
      backlight on; with `mode` a register select (0 or 1) every write selects
      that register in write direction, and the two nibbles deliver `bits`. */
  function NibbleWrites(bits: bv8, mode: bv8): (w: seq<bv8>)
    ensures |w| == 6
  {
    var hi := mode | (bits & 0xF0) | LcdBacklight;
    var lo := mode | ((bits << 4) & 0xF0) | LcdBacklight;
    [hi, hi | Enable, hi, lo, lo | Enable, lo]
  }

  /** The framing of `lcd_byte`: the enable strobe pulses (off, on, off) around
      each nibble, the backlight stays on in every write; with `mode` a
      register select (0 or 1) every write selects that register in write
      direction, and the two nibbles deliver `bits`. */
  lemma NibbleFraming(bits: bv8, mode: bv8)
    ensures var w := NibbleWrites(bits, mode);
            w[1] == w[0] | Enable && w[2] == w[0] && w[4] == w[3] | Enable && w[5] == w[3] &&
            (forall k :: 0 <= k < 6 ==> w[k] & LcdBacklight == LcdBacklight) &&
            (mode & Enable == 0 ==> w[0] & Enable == 0 && w[3] & Enable == 0) &&
            (mode <= 1 ==> forall k :: 0 <= k < 6 ==> w[k] & 1 == mode && w[k] & 2 == 0) &&
            (mode & 0xF0 == 0 ==> Received(w[0], w[3]) == bits)
  {
  }

  /** A `char` narrowed to `uint8_t`. */
  function Narrow(ch: char): bv8
  {
    (ch as int % 256) as bv8
  }

  /** The bytes a C string stands for: its characters up to the first NUL
      (or the end of `s`), each narrowed to a byte. */
  function TextBytes(s: seq<char>): seq<bv8>
    decreases |s|
  {
    if s == [] || s[0] == '\0' then [] else [Narrow(s[0])] + TextBytes(s[1..])
  }

  /** `lcd_print(s)`: one `lcd_byte(ch, LCD_CHR)` per character. */
  function TextWrites(s: seq<char>): (w: seq<bv8>)
    ensures |w| == 6 * |TextBytes(s)|
    decreases |s|
  {
    if s == [] || s[0] == '\0' then [] else NibbleWrites(Narrow(s[0]), LcdChr) + TextWrites(s[1..])
  }

  /** `lcd_clear`: the clear-display command. */
  function ClearWrites(): (w: seq<bv8>)
    ensures |w| == 6
    ensures Decode(w) == [(0x01, false)]
  {
    var w := NibbleWrites(0x01, LcdCmd);
    GroupReceived(0, 0x01, LcdCmd, []);
    assert w + [] == w;
    w
  }

  /** `setup`'s commands after construction: 0x33 and 0x32 (to 4-bit mode),
      0x06 (entry mode), 0x0C (display on), 0x28 (two lines), then clear. */
  function SetupWrites(): (w: seq<bv8>)
    ensures |w| == 36
  {
    NibbleWrites(0x33, LcdCmd) + NibbleWrites(0x32, LcdCmd) + NibbleWrites(0x06, LcdCmd) +
    NibbleWrites(0x0C, LcdCmd) + NibbleWrites(0x28, LcdCmd) + ClearWrites()
  }

  /** The nibbles the display latches from a run of expander writes, with
      their register select: the port's data bits 4 to 7 are taken at every
      falling edge of the enable strobe that ends a write cycle (read/write
      low). `prev` is the port value before the first write. */
  function Latches(prev: bv8, w: seq<bv8>): seq<(bv8, bool)>
    decreases |w|
  {
    if w == [] then []
    else (if EndsWrite(prev, w[0]) then [(prev & 0xF0, prev & 1 == 1)] else []) +
         Latches(w[0], w[1..])
  }

  /** Moving the port from `prev` to `x` ends a write cycle: the strobe falls
      while read/write selects a write. */
  predicate EndsWrite(prev: bv8, x: bv8)
  {
    prev & Enable != 0 && prev & ReadWrite == 0 && x & Enable == 0
  }

  /** No write cycle is under way at port value `prev`: the strobe is low,
      or read/write selects a read. */
  predicate Quiet(prev: bv8)
  {
    prev & Enable == 0 || prev & ReadWrite != 0
  }

  /** In the 4-bit interface, latched nibbles pair up into bytes, high nibble
      first; the register select of the high nibble tags the byte. */
  function Pair(ns: seq<(bv8, bool)>): seq<(bv8, bool)>
    decreases |ns|
  {
    if |ns| < 2 then [] else [(ns[0].0 | (ns[1].0 >> 4), ns[0].1)] + Pair(ns[2..])
  }

  /** What the display receives from a run of expander writes, starting from
      a port with every bit low: each byte, and whether it is character data. */
  function Decode(w: seq<bv8>): seq<(bv8, bool)>
  {
    Pair(Latches(0, w))
  }

  /** One more port write: a latch exactly when it ends a write cycle. */
  lemma LatchStep(prev: bv8, x: bv8, rest: seq<bv8>)
    ensures Latches(prev, [x] + rest) ==
            (if EndsWrite(prev, x) then [(prev & 0xF0, prev & 1 == 1)] else []) + Latches(x, rest)
  {
    assert ([x] + rest)[1..] == rest;
  }

  /** Six port writes with the strobe low, high, low, low, high, low, the
      strobed ones selecting a write, entered with no write cycle under way,
      latch the 2nd and the 5th write. */
  lemma SixLatches(prev: bv8, a: bv8, b: bv8, c: bv8, d: bv8, e: bv8, f: bv8, rest: seq<bv8>)
    requires Quiet(prev) && a & Enable == 0 && b & Enable != 0 && c & Enable == 0
    requires d & Enable == 0 && e & Enable != 0 && f & Enable == 0
    requires b & ReadWrite == 0 && e & ReadWrite == 0
    ensures Latches(prev, [a, b, c, d, e, f] + rest) ==
            [(b & 0xF0, b & 1 == 1), (e & 0xF0, e & 1 == 1)] + Latches(f, rest)
  {
    var r5 := [f] + rest;
    var r4 := [e] + r5;
    var r3 := [d] + r4;
    var r2 := [c] + r3;
    var r1 := [b] + r2;
    assert [a, b, c, d, e, f] + rest == [a] + r1;
    LatchStep(e, f, rest);
    LatchStep(d, e, r5);
    LatchStep(c, d, r4);
    LatchStep(b, c, r3);
    LatchStep(a, b, r2);
    LatchStep(prev, a, r1);
  }

  /** The strobe and data bits of one `lcd_byte` group. */
  lemma GroupBits(bits: bv8, mode: bv8)
    requires mode <= 1
    ensures var w := NibbleWrites(bits, mode);
            w[0] & Enable == 0 && w[1] & Enable != 0 && w[2] & Enable == 0 &&
            w[3] & Enable == 0 && w[4] & Enable != 0 && w[5] & Enable == 0 &&
            w[1] & ReadWrite == 0 && w[4] & ReadWrite == 0 &&
            w[1] & 0xF0 == bits & 0xF0 && w[4] & 0xF0 == (bits << 4) & 0xF0 &&
            (w[1] & 1 == 1) == (mode == 1) && (w[4] & 1 == 1) == (mode == 1)
  {
  }

  /** One `lcd_byte` group, entered with no write cycle under way, latches
      its two nibbles at the two falling edges and leaves the strobe low. */
  lemma GroupLatches(prev: bv8, bits: bv8, mode: bv8, rest: seq<bv8>)
    requires Quiet(prev) && mode <= 1
    ensures NibbleWrites(bits, mode)[5] & Enable == 0
    ensures Latches(prev, NibbleWrites(bits, mode) + rest) ==
            [(bits & 0xF0, mode == 1), ((bits << 4) & 0xF0, mode == 1)] + Latches(NibbleWrites(bits, mode)[5], rest)
  {
    var w := NibbleWrites(bits, mode);
    GroupBits(bits, mode);
    assert w == [w[0], w[1], w[2], w[3], w[4], w[5]];
    SixLatches(prev, w[0], w[1], w[2], w[3], w[4], w[5], rest);
  }

  /** Two latched nibbles make one byte. */
  lemma PairGroup(bits: bv8, chr: bool, ns: seq<(bv8, bool)>)
    ensures Pair([(bits & 0xF0, chr), ((bits << 4) & 0xF0, chr)] + ns) == [(bits, chr)] + Pair(ns)
  {
    var x := [(bits & 0xF0, chr), ((bits << 4) & 0xF0, chr)] + ns;
    assert x[2..] == ns;
    assert (bits & 0xF0) | (((bits << 4) & 0xF0) >> 4) == bits;
  }

  /** One `lcd_byte` group, entered with no write cycle under way, delivers `bits`. */
  lemma GroupReceived(prev: bv8, bits: bv8, mode: bv8, rest: seq<bv8>)
    requires Quiet(prev) && mode <= 1
    ensures NibbleWrites(bits, mode)[5] & Enable == 0
    ensures Pair(Latches(prev, NibbleWrites(bits, mode) + rest)) ==
            [(bits, mode == 1)] + Pair(Latches(NibbleWrites(bits, mode)[5], rest))
  {
    GroupLatches(prev, bits, mode, rest);
    PairGroup(bits, mode == 1, Latches(NibbleWrites(bits, mode)[5], rest));
  }

  /** Printing, entered with no write cycle under way, delivers the text's bytes as character data. */
  lemma {:induction false} TextLatches(prev: bv8, s: seq<char>)
    requires Quiet(prev)
    ensures Pair(Latches(prev, TextWrites(s))) == seq(|TextBytes(s)|, k requires 0 <= k < |TextBytes(s)| => (TextBytes(s)[k], true))
    decreases |s|
  {
    if s != [] && s[0] != '\0' {
      var w := NibbleWrites(Narrow(s[0]), LcdChr);
      GroupReceived(prev, Narrow(s[0]), LcdChr, TextWrites(s[1..]));
      TextLatches(w[5], s[1..]);
    }
  }

  /** The display receives exactly the text's bytes, each as character data. */
  lemma TextRoundTrip(s: seq<char>)
    ensures Decode(TextWrites(s)) == seq(|TextBytes(s)|, k requires 0 <= k < |TextBytes(s)| => (TextBytes(s)[k], true))
  {
    TextLatches(0, s);
  }

  /** The initialisation sends 0x33, 0x32, 0x06, 0x0C, 0x28 and 0x01, all as commands. */
  lemma SetupReceived()
    ensures Decode(SetupWrites()) == [(0x33, false), (0x32, false), (0x06, false), (0x0C, false), (0x28, false), (0x01, false)]
  {
    CommandsReceived(0, 0x33, 0x32, 0x06, 0x0C, 0x28);
  }

  /** At power-on the expander's port is all high: the strobe is up, but with
      read/write selecting a read, so the fall of the strobe at `setup`'s first
      write ends a read cycle and latches nothing. The initialisation reaches
      the display just as it does from a low port. */
  lemma SetupReceivedAtPowerOn()
    ensures Pair(Latches(0xFF, SetupWrites())) ==
            [(0x33, false), (0x32, false), (0x06, false), (0x0C, false), (0x28, false), (0x01, false)]
  {
    CommandsReceived(0xFF, 0x33, 0x32, 0x06, 0x0C, 0x28);
  }

  /** Six pieces joined left to right equal the same pieces nested to the right. */
  lemma Nest<T>(a: seq<T>, b: seq<T>, c: seq<T>, d: seq<T>, e: seq<T>, f: seq<T>)
    ensures a + b + c + d + e + f == a + (b + (c + (d + (e + (f + [])))))
  {
  }

  /** Six singletons nested to the right form the six-element sequence. */
  lemma NestSix<T>(a: T, b: T, c: T, d: T, e: T, f: T)
    ensures [a] + ([b] + ([c] + ([d] + ([e] + ([f] + []))))) == [a, b, c, d, e, f]
  {
  }

  /** Five commands and then the clear command, sent with no write cycle
      under way, reach the display in order, as commands. */
  lemma CommandsReceived(prev: bv8, a: bv8, b: bv8, c: bv8, d: bv8, e: bv8)
    requires Quiet(prev)
    ensures var wa, wb, wc, wd, we := NibbleWrites(a, LcdCmd), NibbleWrites(b, LcdCmd), NibbleWrites(c, LcdCmd),
                                      NibbleWrites(d, LcdCmd), NibbleWrites(e, LcdCmd);
            Pair(Latches(prev, wa + wb + wc + wd + we + ClearWrites())) ==
            [(a, false), (b, false), (c, false), (d, false), (e, false), (0x01, false)]
  {
    var wa, wb, wc := NibbleWrites(a, LcdCmd), NibbleWrites(b, LcdCmd), NibbleWrites(c, LcdCmd);
    var wd, we, wf := NibbleWrites(d, LcdCmd), NibbleWrites(e, LcdCmd), ClearWrites();
    Nest(wa, wb, wc, wd, we, wf);
    GroupReceived(prev, a, LcdCmd, wb + (wc + (wd + (we + (wf + [])))));
    GroupReceived(wa[5], b, LcdCmd, wc + (wd + (we + (wf + []))));
    GroupReceived(wb[5], c, LcdCmd, wd + (we + (wf + [])));
    GroupReceived(wc[5], d, LcdCmd, we + (wf + []));
    GroupReceived(wd[5], e, LcdCmd, wf + []);
    GroupReceived(we[5], 0x01, LcdCmd, []);
    assert Pair(Latches(wf[5], [])) == [];
    NestSix((a, false), (b, false), (c, false), (d, false), (e, false), (0x01 as bv8, false));
  }

  /** Six writes appended one at a time to nothing form the six-element sequence. */
  lemma Six(a: bv8, b: bv8, c: bv8, d: bv8, e: bv8, f: bv8)
    ensures [] + [a] + [b] + [c] + [d] + [e] + [f] == [a, b, c, d, e, f]
  {
  }

  /** `lcd_byte`'s six writes, given the two port values `hi` and `lo` it computes. */
  lemma NibbleWritesAre(bits: bv8, mode: bv8, hi: bv8, lo: bv8)
    requires hi == mode | (bits & 0xF0) | LcdBacklight
    requires lo == mode | ((bits << 4) & 0xF0) | LcdBacklight
    ensures NibbleWrites(bits, mode) == [hi, hi | Enable, hi, lo, lo | Enable, lo]
  {
  }

  /** `lcd_byte` on the bus: six `write` calls, in order. */
  method LcdByte(wire: I2C, bits: bv8, mode: bv8, deviceSda: bool)
    requires wire.Valid() && wire.State() == Idle
    modifies wire
    ensures wire.Valid() && wire.State() == Idle
    ensures wire.trace == old(wire.trace) + Run(Idle, WritesOps(wire.address, NibbleWrites(bits, mode)))
  {
    var hi := mode | (bits & 0xF0) | LcdBacklight;
    var lo := mode | ((bits << 4) & 0xF0) | LcdBacklight;
    ghost var t0 := wire.trace;
    ghost var done: seq<bv8> := [];
    assert WritesOps(wire.address, []) == [];
    WriteOneMore(t0, wire.trace, wire.address, done, hi);
    wire.Write(hi as int, deviceSda);
    done := done + [hi];
    WriteOneMore(t0, wire.trace, wire.address, done, hi | Enable);
    wire.Write((hi | Enable) as int, deviceSda);
    done := done + [hi | Enable];
    WriteOneMore(t0, wire.trace, wire.address, done, hi);
    wire.Write(hi as int, deviceSda);
    done := done + [hi];
    WriteOneMore(t0, wire.trace, wire.address, done, lo);
    wire.Write(lo as int, deviceSda);
    done := done + [lo];
    WriteOneMore(t0, wire.trace, wire.address, done, lo | Enable);
    wire.Write((lo | Enable) as int, deviceSda);
    done := done + [lo | Enable];
    WriteOneMore(t0, wire.trace, wire.address, done, lo);
    wire.Write(lo as int, deviceSda);
    done := done + [lo];
    Six(hi, hi | Enable, hi, lo, lo | Enable, lo);
    NibbleWritesAre(bits, mode, hi, lo);
  }

  /** One more character of the string: its six writes follow what is done. */
  lemma TextStep(s: seq<char>, i: nat, done: seq<bv8>)
    requires i < |s| && s[i] != '\0'
    requires TextWrites(s) == done + TextWrites(s[i..])
    ensures TextWrites(s) == (done + NibbleWrites(Narrow(s[i]), LcdChr)) + TextWrites(s[i + 1..])
  {
    assert s[i..][1..] == s[i + 1..];
  }

  /** At the end of the string or at its NUL, nothing more is written. */
  lemma TextEnd(s: seq<char>, i: nat, done: seq<bv8>)
    requires i <= |s| && (i == |s| || s[i] == '\0')
    requires TextWrites(s) == done + TextWrites(s[i..])
    ensures TextWrites(s) == done
  {
    assert done + [] == done;
  }

  /** `lcd_print`: walks the string up to its NUL. */
  method LcdPrint(wire: I2C, s: seq<char>, deviceSda: bool)
    requires wire.Valid() && wire.State() == Idle
    modifies wire
    ensures wire.Valid() && wire.State() == Idle
    ensures wire.trace == old(wire.trace) + Run(Idle, WritesOps(wire.address, TextWrites(s)))
  {
    var i := 0;
    ghost var t0 := wire.trace;
    ghost var done: seq<bv8> := [];
    assert WritesOps(wire.address, []) == [];
    while i < |s| && s[i] != '\0'
      invariant 0 <= i <= |s|
      invariant wire.Valid() && wire.State() == Idle
      invariant TextWrites(s) == done + TextWrites(s[i..])
      invariant wire.trace == t0 + Run(Idle, WritesOps(wire.address, done))
      decreases |s| - i
    {
      ghost var w := NibbleWrites(Narrow(s[i]), LcdChr);
      TextStep(s, i, done);
      MoreWrites(t0, wire.trace, wire.address, done, w);
      LcdByte(wire, Narrow(s[i]), LcdChr, deviceSda);
      done := done + w;
      i := i + 1;
    }
    TextEnd(s, i, done);
  }

  /** `lcd_clear`. */
  method LcdClear(wire: I2C, deviceSda: bool)
    requires wire.Valid() && wire.State() == Idle
    modifies wire
    ensures wire.Valid() && wire.State() == Idle
    ensures wire.trace == old(wire.trace) + Run(Idle, WritesOps(wire.address, ClearWrites()))
  {
    LcdByte(wire, 0x01, LcdCmd, deviceSda);
  }

  /** `setup`'s six commands, appended one `lcd_byte` at a time, are its initialisation writes. */
  lemma SetupConcat()
    ensures [] + NibbleWrites(0x33, LcdCmd) + NibbleWrites(0x32, LcdCmd) + NibbleWrites(0x06, LcdCmd) +
            NibbleWrites(0x0C, LcdCmd) + NibbleWrites(0x28, LcdCmd) + ClearWrites() == SetupWrites()
  {
  }

  /** `setup`: construct the engine for the expander, then initialise the display. */
  method Setup(deviceSda: bool) returns (wire: I2C)
    ensures fresh(wire) && wire.Valid() && wire.State() == Idle && wire.address == LcdAddress
    ensures wire.trace == [Idle] + Run(Idle, WritesOps(wire.address, SetupWrites()))
  {
    wire := new I2C(LcdAddress);
    ghost var t0 := wire.trace;
    ghost var done: seq<bv8> := [];
    assert WritesOps(wire.address, []) == [];
    MoreWrites(t0, wire.trace, wire.address, done, NibbleWrites(0x33, LcdCmd));
    LcdByte(wire, 0x33, LcdCmd, deviceSda);
    done := done + NibbleWrites(0x33, LcdCmd);
    MoreWrites(t0, wire.trace, wire.address, done, NibbleWrites(0x32, LcdCmd));
    LcdByte(wire, 0x32, LcdCmd, deviceSda);
    done := done + NibbleWrites(0x32, LcdCmd);
    MoreWrites(t0, wire.trace, wire.address, done, NibbleWrites(0x06, LcdCmd));
    LcdByte(wire, 0x06, LcdCmd, deviceSda);
    done := done + NibbleWrites(0x06, LcdCmd);
    MoreWrites(t0, wire.trace, wire.address, done, NibbleWrites(0x0C, LcdCmd));
    LcdByte(wire, 0x0C, LcdCmd, deviceSda);
    done := done + NibbleWrites(0x0C, LcdCmd);
    MoreWrites(t0, wire.trace, wire.address, done, NibbleWrites(0x28, LcdCmd));
    LcdByte(wire, 0x28, LcdCmd, deviceSda);
    done := done + NibbleWrites(0x28, LcdCmd);
    MoreWrites(t0, wire.trace, wire.address, done, ClearWrites());
    LcdClear(wire, deviceSda);
    done := done + ClearWrites();
    SetupConcat();
  }
}
