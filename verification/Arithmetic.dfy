/** Division by products, for the positions of bits and bytes. */
module Arithmetic {
  lemma {:induction false} MulStep(d: nat, a: nat, b: nat)
    requires a < b
    ensures d * a + d <= d * b
    decreases b
  {
    assert d * b == d * (b - 1) + d;
    if a < b - 1 {
      MulStep(d, a, b - 1);
    }
  }

  lemma DivMod(x: nat, d: nat)
    requires d > 0
    ensures x == d * (x / d) + x % d && 0 <= x % d < d
  {
  }

  lemma Unique(d: nat, q: nat, r: nat, q': nat, r': nat)
    requires d * q + r == d * q' + r' && r < d && r' < d
    ensures q == q' && r == r'
  {
    if q < q' {
      MulStep(d, q, q');
    } else if q' < q {
      MulStep(d, q', q);
    }
  }

  lemma DivUnique(x: nat, d: nat, q: nat, r: nat)
    requires d > 0 && x == d * q + r && r < d
    ensures x / d == q && x % d == r
  {
    DivMod(x, d);
    Unique(d, q, r, x / d, x % d);
  }

  lemma Product(a: nat, b: nat, q: nat, r: nat, m: nat)
    requires m < a && r < b
    ensures a * (b * q + r) + m == (a * b) * q + (a * r + m)
    ensures a * r + m < a * b
  {
    Distribute(a, b * q, r);
    MulAssoc(a, b, q);
    MulStep(a, r, b);
  }
  lemma Distribute(a: nat, x: nat, y: nat)
    ensures a * (x + y) == a * x + a * y
  {
  }

  lemma MulAssoc(a: nat, b: nat, q: nat)
    ensures a * (b * q) == (a * b) * q
  {
  }

  lemma MulPos(a: nat, b: nat)
    requires a > 0 && b > 0
    ensures a * b > 0
  {
    MulStep(a, 0, b);
  }

  /** Dividing twice is dividing by the product. */
  lemma DivDiv(x: nat, a: nat, b: nat)
    requires a > 0 && b > 0
    ensures a * b > 0 && (x / a) / b == x / (a * b)
  {
    var y := x / a;
    var q, r := y / b, y % b;
    MulPos(a, b);
    DivMod(x, a);
    DivMod(y, b);
    Product(a, b, q, r, x % a);
    DivUnique(x, a * b, q, a * r + x % a);
  }
}
