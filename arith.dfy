/** Integer arithmetic that JavaScript writes with `Math.ceil` over a division. */
module Arith {

  /** `Math.ceil(a / d)` for a positive divisor: the least `r` with `a <= r * d`. */
  function CeilDiv(a: int, d: int): (r: int)
    requires d > 0
    ensures (r - 1) * d < a <= r * d
  {
    var q := (-a) / d;
    var m := (-a) % d;
    assert -a == q * d + m && 0 <= m < d;
    assert (-q) * d == -(q * d);
    assert (-q - 1) * d == -(q * d) - d;
    -q
  }

  /** The bounds of `CeilDiv` pin down its value. */
  lemma {:induction false} CeilDivUnique(a: int, d: int, r: int)
    requires d > 0
    requires (r - 1) * d < a <= r * d
    ensures r == CeilDiv(a, d)
  {
    var c := CeilDiv(a, d);
    if r < c {
      assert r * d <= (c - 1) * d by { MulMonotone(r, c - 1, d); }
    } else if r > c {
      assert c * d <= (r - 1) * d by { MulMonotone(c, r - 1, d); }
    }
  }

  lemma MulMonotone(x: int, y: int, d: int)
    requires x <= y && d > 0
    ensures x * d <= y * d
  {
    assert y * d - x * d == (y - x) * d;
  }
}
