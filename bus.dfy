/** The two open-drain lines of the bus as the engine drives them, and what
    a device watching the wire observes in a sequence of snapshots. */
module Bus {

  /** One snapshot of the bus. Each line is either released (the external
      pull-up holds it high) or driven low by the master: the engine only ever
      switches a pin between input mode and output-low, so direction and level
      are a single bit per line. */
  datatype Lines = Lines(sclReleased: bool, sdaReleased: bool)

  /** Both lines released: the state construction leaves and a stop ends in. */
  const Idle := Lines(true, true)

  /** The four direction switches. Output mode drives a line low (its output
      latch was cleared at construction); input mode releases it. */
  datatype LineOp = DriveSclLow | ReleaseScl | DriveSdaLow | ReleaseSda

  /** The bus after one direction switch. */
  function Step(l: Lines, op: LineOp): (r: Lines)
    ensures op.DriveSclLow? || op.ReleaseScl? ==>
              r.sdaReleased == l.sdaReleased && r.sclReleased == op.ReleaseScl?
    ensures op.DriveSdaLow? || op.ReleaseSda? ==>
              r.sclReleased == l.sclReleased && r.sdaReleased == op.ReleaseSda?
  {
    match op
    case DriveSclLow => l.(sclReleased := false)
    case ReleaseScl => l.(sclReleased := true)
    case DriveSdaLow => l.(sdaReleased := false)
    case ReleaseSda => l.(sdaReleased := true)
  }

  /** The snapshot taken after each switch of `ops`, starting from `l`. */
  function Run(l: Lines, ops: seq<LineOp>): (tr: seq<Lines>)
    ensures |tr| == |ops|
    decreases |ops|
  {
    if ops == [] then [] else [Step(l, ops[0])] + Run(Step(l, ops[0]), ops[1..])
  }

  /** The bus at the end of the trace `tr` that began in `p`. */
  function After(p: Lines, tr: seq<Lines>): Lines
  {
    if tr == [] then p else tr[|tr| - 1]
  }

  /** SDA at every rising edge of SCL: the bits a receiver samples, as the
      master leaves the data line. */
  function Samples(p: Lines, tr: seq<Lines>): seq<bool>
    decreases |tr|
  {
    if tr == [] then [] else EdgeSample(p, tr[0]) + Samples(tr[0], tr[1..])
  }

  /** The bit sampled on going from `p` to `q`: SDA, if SCL rises. */
  function EdgeSample(p: Lines, q: Lines): seq<bool>
  {
    if !p.sclReleased && q.sclReleased then [q.sdaReleased] else []
  }

  /** Going from `p` to `q` keeps the data valid: SDA moves only with SCL low. */
  predicate EdgeValid(p: Lines, q: Lines)
  {
    q.sdaReleased != p.sdaReleased ==> !p.sclReleased && !q.sclReleased
  }

  /** A START condition: SDA falls while SCL stays high. */
  predicate IsStart(p: Lines, q: Lines)
  {
    p.sclReleased && q.sclReleased && p.sdaReleased && !q.sdaReleased
  }

  /** A STOP condition: SDA rises while SCL stays high. */
  predicate IsStop(p: Lines, q: Lines)
  {
    p.sclReleased && q.sclReleased && !p.sdaReleased && q.sdaReleased
  }

  /** The number of START conditions in a trace. */
  function Starts(p: Lines, tr: seq<Lines>): nat
    decreases |tr|
  {
    if tr == [] then 0 else (if IsStart(p, tr[0]) then 1 else 0) + Starts(tr[0], tr[1..])
  }

  /** The number of STOP conditions in a trace. */
  function Stops(p: Lines, tr: seq<Lines>): nat
    decreases |tr|
  {
    if tr == [] then 0 else (if IsStop(p, tr[0]) then 1 else 0) + Stops(tr[0], tr[1..])
  }

  /** Data validity: SDA changes only while SCL is low, on both sides of the change. */
  predicate SdaStableWhileSclHigh(p: Lines, tr: seq<Lines>)
    decreases |tr|
  {
    tr == [] || (EdgeValid(p, tr[0]) && SdaStableWhileSclHigh(tr[0], tr[1..]))
  }

  /** Three switches in a row. */
  lemma Run3(l: Lines, a: LineOp, b: LineOp, c: LineOp)
    ensures Run(l, [a, b, c]) == [Step(l, a), Step(Step(l, a), b), Step(Step(Step(l, a), b), c)]
  {
    var l1 := Step(l, a);
    var l2 := Step(l1, b);
    assert [a, b, c][1..] == [b, c] && [b, c][1..] == [c] && [c][1..] == [];
    assert Run(l2, [c]) == [Step(l2, c)];
  }

  /** What an observer sees of three snapshots, edge by edge. */
  lemma Observe3(p: Lines, x: Lines, y: Lines, z: Lines)
    ensures Samples(p, [x, y, z]) == EdgeSample(p, x) + EdgeSample(x, y) + EdgeSample(y, z)
    ensures Starts(p, [x, y, z]) ==
            (if IsStart(p, x) then 1 else 0) + (if IsStart(x, y) then 1 else 0) + (if IsStart(y, z) then 1 else 0)
    ensures Stops(p, [x, y, z]) ==
            (if IsStop(p, x) then 1 else 0) + (if IsStop(x, y) then 1 else 0) + (if IsStop(y, z) then 1 else 0)
    ensures SdaStableWhileSclHigh(p, [x, y, z]) == (EdgeValid(p, x) && EdgeValid(x, y) && EdgeValid(y, z))
    ensures After(p, [x, y, z]) == z
  {
    assert [x, y, z][1..] == [y, z] && [y, z][1..] == [z] && [z][1..] == [];
    assert Samples(y, [z]) == EdgeSample(y, z) + Samples(z, []);
    assert Samples(x, [y, z]) == EdgeSample(x, y) + Samples(y, [z]);
    assert Starts(x, [y, z]) == (if IsStart(x, y) then 1 else 0) + Starts(y, [z]);
    assert Stops(x, [y, z]) == (if IsStop(x, y) then 1 else 0) + Stops(y, [z]);
    assert SdaStableWhileSclHigh(y, [z]) == EdgeValid(y, z);
    assert SdaStableWhileSclHigh(x, [y, z]) == (EdgeValid(x, y) && SdaStableWhileSclHigh(y, [z]));
  }

  /** Running two switch sequences one after the other. */
  lemma {:induction false} RunAppend(l: Lines, x: seq<LineOp>, y: seq<LineOp>)
    ensures Run(l, x + y) == Run(l, x) + Run(After(l, Run(l, x)), y)
    ensures After(l, Run(l, x + y)) == After(After(l, Run(l, x)), Run(After(l, Run(l, x)), y))
    decreases |x|
  {
    if x != [] {
      var l' := Step(l, x[0]);
      RunAppend(l', x[1..], y);
      assert (x + y)[0] == x[0] && (x + y)[1..] == x[1..] + y;
      assert After(l, Run(l, x)) == After(l', Run(l', x[1..]));
      ObserveAppend(l, Run(l, x), Run(After(l, Run(l, x)), y));
    } else {
      assert x + y == y;
    }
  }

  /** Running one more switch. */
  lemma RunSnoc(l: Lines, ops: seq<LineOp>, op: LineOp)
    ensures Run(l, ops + [op]) == Run(l, ops) + [Step(After(l, Run(l, ops)), op)]
    ensures After(l, Run(l, ops + [op])) == Step(After(l, Run(l, ops)), op)
  {
    var m := After(l, Run(l, ops));
    RunAppend(l, ops, [op]);
    assert [op][1..] == [];
    assert Run(m, [op]) == [Step(m, op)];
  }

  /** A recorded trace `t0 + x` grows by `y` into `t0 + xy` when `xy` is `x` then `y`. */
  lemma Grow<T>(t0: seq<T>, t: seq<T>, x: seq<T>, y: seq<T>, xy: seq<T>)
    requires t == t0 + x && xy == x + y
    ensures t + y == t0 + xy
  {
  }

  /** A recorded trace `t` that ends with the run of `done` grows by the snapshot of one more switch. */
  lemma Extend(t0: seq<Lines>, l0: Lines, done: seq<LineOp>, t: seq<Lines>, op: LineOp)
    requires t == t0 + Run(l0, done)
    ensures t + [Step(After(l0, Run(l0, done)), op)] == t0 + Run(l0, done + [op])
    ensures Step(After(l0, Run(l0, done)), op) == After(l0, Run(l0, done + [op]))
  {
    RunSnoc(l0, done, op);
    Grow(t0, t, Run(l0, done), [Step(After(l0, Run(l0, done)), op)], Run(l0, done + [op]));
  }

  /** The last snapshot of two traces one after the other. */
  lemma {:induction false} AfterAppend(p: Lines, a: seq<Lines>, b: seq<Lines>)
    ensures After(p, a + b) == After(After(p, a), b)
    decreases |a|
  {
    if a != [] {
      AfterAppend(a[0], a[1..], b);
      assert (a + b)[0] == a[0] && (a + b)[1..] == a[1..] + b;
    } else {
      assert a + b == b;
    }
  }

  /** The bits sampled from two traces one after the other. */
  lemma {:induction false} SamplesAppend(p: Lines, a: seq<Lines>, b: seq<Lines>)
    ensures Samples(p, a + b) == Samples(p, a) + Samples(After(p, a), b)
    decreases |a|
  {
    if a != [] {
      SamplesAppend(a[0], a[1..], b);
      assert (a + b)[0] == a[0] && (a + b)[1..] == a[1..] + b;
      assert After(p, a) == After(a[0], a[1..]);
    } else {
      assert a + b == b;
    }
  }

  /** The START conditions of two traces one after the other. */
  lemma {:induction false} StartsAppend(p: Lines, a: seq<Lines>, b: seq<Lines>)
    ensures Starts(p, a + b) == Starts(p, a) + Starts(After(p, a), b)
    decreases |a|
  {
    if a != [] {
      StartsAppend(a[0], a[1..], b);
      assert (a + b)[0] == a[0] && (a + b)[1..] == a[1..] + b;
      assert After(p, a) == After(a[0], a[1..]);
    } else {
      assert a + b == b;
    }
  }

  /** The STOP conditions of two traces one after the other. */
  lemma {:induction false} StopsAppend(p: Lines, a: seq<Lines>, b: seq<Lines>)
    ensures Stops(p, a + b) == Stops(p, a) + Stops(After(p, a), b)
    decreases |a|
  {
    if a != [] {
      StopsAppend(a[0], a[1..], b);
      assert (a + b)[0] == a[0] && (a + b)[1..] == a[1..] + b;
      assert After(p, a) == After(a[0], a[1..]);
    } else {
      assert a + b == b;
    }
  }

  /** Data validity of two traces one after the other. */
  lemma {:induction false} StableAppend(p: Lines, a: seq<Lines>, b: seq<Lines>)
    ensures SdaStableWhileSclHigh(p, a + b) ==
            (SdaStableWhileSclHigh(p, a) && SdaStableWhileSclHigh(After(p, a), b))
    decreases |a|
  {
    if a != [] {
      StableAppend(a[0], a[1..], b);
      assert (a + b)[0] == a[0] && (a + b)[1..] == a[1..] + b;
      assert After(p, a) == After(a[0], a[1..]);
    } else {
      assert a + b == b;
    }
  }

  /** What an observer sees of two traces one after the other. */
  lemma ObserveAppend(p: Lines, a: seq<Lines>, b: seq<Lines>)
    ensures After(p, a + b) == After(After(p, a), b)
    ensures Samples(p, a + b) == Samples(p, a) + Samples(After(p, a), b)
    ensures Starts(p, a + b) == Starts(p, a) + Starts(After(p, a), b)
    ensures Stops(p, a + b) == Stops(p, a) + Stops(After(p, a), b)
    ensures SdaStableWhileSclHigh(p, a + b) ==
            (SdaStableWhileSclHigh(p, a) && SdaStableWhileSclHigh(After(p, a), b))
  {
    AfterAppend(p, a, b);
    SamplesAppend(p, a, b);
    StartsAppend(p, a, b);
    StopsAppend(p, a, b);
    StableAppend(p, a, b);
  }

  /** A trace that keeps SDA still while SCL is high holds no START and no STOP condition. */
  lemma {:induction false} StableHasNoConditions(p: Lines, tr: seq<Lines>)
    requires SdaStableWhileSclHigh(p, tr)
    ensures Starts(p, tr) == 0 && Stops(p, tr) == 0
    decreases |tr|
  {
    if tr != [] {
      StableHasNoConditions(tr[0], tr[1..]);
    }
  }
}
