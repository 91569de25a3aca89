/** Facts of integer floor division and of real arithmetic that the solver
    does not find on its own. */
module Arith {

  lemma MulAtLeast(d: nat, x: nat)
    requires x >= 1
    ensures d * x >= d
  {
    assert d * x == d * (x - 1) + d;
  }

  /** A quotient and remainder that fit are the ones floor division finds. */
  lemma DivUnique(a: nat, d: nat, q: nat, r: nat)
    requires d > 0 && r < d && a == d * q + r
    ensures a / d == q
  {
    var q', r' := a / d, a % d;
    assert a == d * q' + r';
    if q' < q {
      assert d * q - d * q' == d * (q - q');
      MulAtLeast(d, q - q');
    } else if q' > q {
      assert d * q' - d * q == d * (q' - q);
      MulAtLeast(d, q' - q);
    }
  }

  lemma Distribute(b: nat, c: nat, q: nat, r: nat)
    ensures b * (c * q + r) == (b * c) * q + b * r
  {
  }

  /** A remainder below `b` after `r2 < c` whole `b`s stays below `b * c`. */
  lemma BelowProduct(b: nat, c: nat, r2: nat, r: nat)
    requires r < b && r2 < c
    ensures b * r2 + r < b * c
  {
    MulAtLeast(b, c - r2);
    assert b * (c - r2) == b * c - b * r2;
  }

  /** Floor division by `b`, then by `c`, is floor division by `b * c`. */
  lemma DivDiv(a: nat, b: nat, c: nat)
    requires b > 0 && c > 0
    ensures a / b / c == a / (b * c)
  {
    var q, r := a / b, a % b;
    var q2, r2 := q / c, q % c;
    assert a == b * q + r;
    assert q == c * q2 + r2;
    Distribute(b, c, q2, r2);
    BelowProduct(b, c, r2, r);
    DivUnique(a, b * c, q2, b * r2 + r);
  }

  lemma DivThenScale(x: real, c: real, a: real)
    requires c != 0.0
    ensures x / c * a * c == x * a
    ensures x / c * a == x * a / c
  {
  }

  lemma ScaleThenDiv(x: real, a: real, c: real)
    requires c != 0.0
    ensures x * (a * c) / c == x * a
  {
  }

  lemma ScaleUp(p: real, n: real)
    requires p >= 0.0 && n >= 1.0
    ensures p <= p * n
    ensures p > 0.0 && n >= 2.0 ==> p < p * n
  {
  }

  lemma NonNegative(x: real, y: real)
    requires x >= 0.0 && y >= 0.0
    ensures x * y >= 0.0
  {
  }

  lemma NonNegativeQuotient(x: real, c: real, a: real)
    requires x >= 0.0 && c > 0.0 && a >= 0.0
    ensures x / c * a >= 0.0
  {
  }

  /** Equal factors give equal products. */
  lemma SameScale(x: real, y: real, n: real)
    requires x == y
    ensures x * n == y * n
  {
  }
}
