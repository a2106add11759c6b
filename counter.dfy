/** The demo loop: once per call, the display is cleared and shows a
    four-digit decimal counter, which then moves on by one. */
module Counter {
  import opened Arith
  import opened Bus
  import opened Waveform
  import opened SoftI2C
  import opened Lcd

  /** The decimal digit character for the last digit of `n`. */
  function Digit(n: nat): (ch: char)
    ensures '0' <= ch <= '9'
    ensures ch as int - '0' as int == n % 10
  {
    ((n % 10) + '0' as int) as char
  }

  /** The five-character buffer `loop` fills: thousands, hundreds, tens and
      units of `i`, then the terminating NUL. */
  function CounterText(i: nat): (tmp: seq<char>)
    ensures |tmp| == 5 && tmp[4] == '\0'
    ensures forall k :: 0 <= k < 4 ==> '0' <= tmp[k] <= '9'
  {
    [Digit(i / 1000), Digit(i / 100), Digit(i / 10), Digit(i / 1), '\0']
  }

  /** The number a string of decimal digits spells, most significant first. */
  function DecimalValue(s: seq<char>): int
  {
    if s == [] then 0 else DecimalValue(s[..|s| - 1]) * 10 + (s[|s| - 1] as int - '0' as int)
  }

  /** The four digits spell the counter modulo 10000: the display shows the
      counter's last four decimal digits, with leading zeros. */
  lemma CounterTextSpells(i: nat)
    ensures DecimalValue(CounterText(i)[..4]) == i % 10000
  {
    var t := CounterText(i)[..4];
    assert i / 1 == i;
    assert DecimalValue(t[..1]) == (i / 1000) % 10 by {
      assert t[..1][..0] == [];
    }
    assert DecimalValue(t[..2]) == (i / 1000) % 10 * 10 + (i / 100) % 10 by {
      assert t[..2][..1] == t[..1];
    }
    assert DecimalValue(t[..3]) == ((i / 1000) % 10 * 10 + (i / 100) % 10) * 10 + (i / 10) % 10 by {
      assert t[..3][..2] == t[..2];
    }
    assert t[..4][..3] == t[..3];
    assert DecimalValue(t) == (((i / 1000) % 10 * 10 + (i / 100) % 10) * 10 + (i / 10) % 10) * 10 + i % 10;
    ModSplit(i, 10, 1000);
    ModSplit(i / 10, 10, 100);
    ModSplit(i / 100, 10, 10);
    ModSplit(i, 10, 10);
    ModSplit(i, 100, 10);
  }

  /** Only the four digits reach the display: the NUL ends the text. */
  lemma CounterTextBytes(i: nat)
    ensures TextBytes(CounterText(i)) == [Narrow(Digit(i / 1000)), Narrow(Digit(i / 100)), Narrow(Digit(i / 10)), Narrow(Digit(i))]
  {
    var tmp := CounterText(i);
    assert i / 1 == i;
    assert tmp[1..][1..][1..][1..] == ['\0'];
    assert TextBytes(tmp[1..][1..][1..][1..]) == [];
    assert TextBytes(tmp[1..][1..][1..]) == [Narrow(Digit(i))];
    assert TextBytes(tmp[1..][1..]) == [Narrow(Digit(i / 10)), Narrow(Digit(i))];
    assert TextBytes(tmp[1..]) == [Narrow(Digit(i / 100)), Narrow(Digit(i / 10)), Narrow(Digit(i))];
  }

  /** What the display receives from one pass: the clear command, then the
      four digit characters as data. */
  lemma LoopReceived(i: nat)
    ensures Decode(ClearWrites() + TextWrites(CounterText(i))) ==
            [(0x01, false), (Narrow(Digit(i / 1000)), true), (Narrow(Digit(i / 100)), true),
             (Narrow(Digit(i / 10)), true), (Narrow(Digit(i)), true)]
  {
    var text := TextWrites(CounterText(i));
    GroupReceived(0, 0x01, LcdCmd, text);
    TextLatches(ClearWrites()[5], CounterText(i));
    CounterTextBytes(i);
    assert i / 1 == i;
  }

  /** `loop`: clear the display, print the counter, and return the counter's
      next value (the sleep between passes is not modelled). */
  method Loop(wire: I2C, i: nat, deviceSda: bool) returns (next: nat)
    requires wire.Valid() && wire.State() == Idle
    modifies wire
    ensures wire.Valid() && wire.State() == Idle
    ensures wire.trace == old(wire.trace) + Run(Idle, WritesOps(wire.address, ClearWrites() + TextWrites(CounterText(i))))
    ensures next == i + 1
  {
    var tmp := [Digit(i / 1000), Digit(i / 100), Digit(i / 10), Digit(i / 1), '\0'];
    ghost var t0 := wire.trace;
    assert WritesOps(wire.address, []) == [];
    assert [] + ClearWrites() == ClearWrites();
    MoreWrites(t0, wire.trace, wire.address, [], ClearWrites());
    LcdClear(wire, deviceSda);
    MoreWrites(t0, wire.trace, wire.address, ClearWrites(), TextWrites(tmp));
    LcdPrint(wire, tmp, deviceSda);
    next := i + 1;
  }
}
