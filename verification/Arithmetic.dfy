/** Facts about products and rounded-down quotients that the solver does not
    find by itself. */
module Arithmetic {

  function Min(a: int, b: int): int { if a <= b then a else b }

  function Max(a: int, b: int): int { if a >= b then a else b }

  /** Rounded up. */
  function CeilDiv(a: nat, b: nat): nat
    requires b > 0
  {
    (a + b - 1) / b
  }

  lemma Scale(a: int, b: int, c: nat)
    requires a <= b
    ensures a * c <= b * c
  {
  }

  lemma ScaleIf(a: int, b: int, c: nat)
    ensures a <= b ==> a * c <= b * c
  {
    if a <= b {
      Scale(a, b, c);
    }
  }

  lemma OneMore(n: int, c: int)
    ensures (n + 1) * c == n * c + c
  {
  }

  lemma QuotientRemainder(a: int, d: int)
    requires d > 0
    ensures d * (a / d) <= a < d * (a / d) + d
  {
  }

  lemma QuotientMonotone(a: int, b: int, d: int)
    requires d > 0 && a <= b
    ensures a / d <= b / d
  {
    QuotientRemainder(a, d);
    QuotientRemainder(b, d);
    var p, q := a / d, b / d;
    ScaleIf(q + 1, p, d);
    assert d * (q + 1) == d * q + d;
  }

  lemma QuotientBounds(a: int, d: int, top: int)
    requires d > 0 && 0 <= top && 0 <= a <= d * top
    ensures 0 <= a / d <= top
    ensures a < d * top ==> a / d < top
  {
    var q := a / d;
    QuotientRemainder(a, d);
    ScaleIf(top + 1, q, d);
    assert d * (top + 1) == d * top + d;
  }

  lemma SmallQuotient(a: nat, b: nat)
    requires a < b
    ensures a / b == 0
  {
    QuotientBounds(a, b, 1);
  }

  lemma QuotientShift(n: nat, r: nat)
    requires r > 0
    ensures (n + r) / r == n / r + 1
  {
    QuotientRemainder(n, r);
    QuotientRemainder(n + r, r);
    var p, q := n / r, (n + r) / r;
    ScaleIf(q + 1, p + 1, r);
    ScaleIf(p + 2, q, r);
    assert r * (p + 1) == r * p + r && r * (q + 1) == r * q + r && r * (p + 2) == r * p + r + r;
  }
}
