/** Integer division facts shared by the bit and the decimal decompositions. */
module Arith {

  /** Quotient and remainder are determined by any decomposition `a == q * b + r`. */
  lemma DivModUnique(a: int, b: int, q: int, r: int)
    requires 0 < b && 0 <= r < b && a == q * b + r
    ensures a / b == q && a % b == r
  {
    var d := q - a / b;
    assert d * b == a % b - r;
  }

  /** Dividing by `b * p` is dividing by `b` and then by `p`; the remainder
      modulo `b * p` is made of the two remainders. */
  lemma ModSplit(c: int, b: int, p: int)
    requires 0 < b && 0 < p
    ensures c / (b * p) == (c / b) / p
    ensures c % (b * p) == b * ((c / b) % p) + c % b
  {
    var h, r := c / b, c % b;
    var q, s := h / p, h % p;
    assert h == q * p + s;
    assert c == h * b + r;
    assert c == q * (b * p) + (b * s + r) by {
      assert h * b == (q * p + s) * b;
    }
    assert 0 <= b * s + r < b * p by {
      assert b * s <= b * (p - 1);
    }
    DivModUnique(c, b * p, q, b * s + r);
  }
}
