/** Facts about products and exact quotients. */
module Arithmetic {

  lemma MulBound(b: int, d: int)
    requires b > 0
    ensures d >= 1 ==> b * d >= b
    ensures d <= -1 ==> b * d <= -b
  {
    if d >= 1 {
      assert b * (d - 1) >= 0;
    } else if d <= -1 {
      assert b * (-1 - d) >= 0;
    }
  }

  lemma SameQuotient(b: int, p: int, q: int)
    requires b > 0 && b * p == b * q
    ensures p == q
  {
    MulBound(b, p - q);
    assert b * (p - q) == b * p - b * q;
  }

  lemma ExactDiv(b: int, q: int)
    requires b > 0
    ensures (b * q) / b == q && (b * q) % b == 0
  {
    var x := b * q;
    var d, m := x / b, x % b;
    assert x == b * d + m && 0 <= m < b;
    assert b * (q - d) == b * q - b * d == m;
    MulBound(b, q - d);
  }

  lemma MulMonotone(c: int, x: int, y: int)
    requires c >= 0
    ensures x <= y ==> c * x <= c * y
  {
    assert c * (y - x) == c * y - c * x;
    if x <= y {
      assert c * (y - x) >= 0;
    }
  }

  lemma SquareMonotone(a: int, b: int)
    requires a >= 0 && b >= 0
    ensures a <= b ==> a * a <= b * b
  {
    MulMonotone(a, a, b);
    MulMonotone(b, a, b);
  }
}
