/** Products and quotients of naturals, in the small steps the solver takes reliably. */
module Arithmetic {

  lemma Products(w: nat, a: nat, b: nat)
    requires a <= b
    ensures w * a <= w * b
  {
  }

  lemma NextMultiple(x: nat, z: nat, n: nat)
    requires x < z
    ensures x * n + n <= z * n
  {
    Products(n, x + 1, z);
    assert n * (x + 1) == x * n + n;
    assert n * z == z * n;
  }

  lemma WholeQuotient(w: nat, n: nat)
    requires n > 0
    ensures w * n / n == w && w * 0 / n == 0
  {
    var q, r := w * n / n, w * n % n;
    assert w * n == q * n + r;
    if q < w { NextMultiple(q, w, n); }
    if w < q { NextMultiple(w, q, n); }
    assert w * 0 == 0;
  }

  lemma Quotients(a: nat, b: nat, n: nat)
    requires n > 0 && a <= b
    ensures a / n <= b / n
  {
    var qa, qb := a / n, b / n;
    assert a == qa * n + a % n;
    assert b == qb * n + b % n;
    if qb < qa { NextMultiple(qb, qa, n); }
  }

  lemma QuotientNat(x: nat, n: nat)
    requires n > 0
    ensures x / n >= 0
  {
  }

  /** Adding b to a moves the quotient by that of b, or by one more. */
  lemma QuotientStep(a: nat, b: nat, n: nat)
    requires n > 0
    ensures a / n + b / n <= (a + b) / n <= a / n + b / n + 1
  {
    var q, p, r := a / n, b / n, (a + b) / n;
    assert a == q * n + a % n && b == p * n + b % n && a + b == r * n + (a + b) % n;
    if r < q + p { NextMultiple(r, q + p, n); }
    if r > q + p + 1 { NextMultiple(q + p + 1, r, n); }
  }
}
