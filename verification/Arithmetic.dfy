/** Facts about whole-number division that the solver needs one at a time. */
module Arithmetic {
  lemma ProductGrows(a: nat, b: nat, d: nat)
    ensures a <= b ==> a * d <= b * d
  {}

  lemma DivBounds(n: nat, d: nat)
    requires d > 0
    ensures (n / d) * d <= n < (n / d) * d + d && n % d == n - (n / d) * d
  {}

  lemma Quotient(n: nat, d: nat, low: nat, high: nat)
    requires d > 0 && low * d <= n < high * d
    ensures low <= n / d < high
  {
    DivBounds(n, d);
    ProductGrows(n / d + 1, low, d);
    ProductGrows(high, n / d, d);
  }

  lemma FloorOf(n: nat, d: nat, q: nat)
    requires d > 0 && q * d <= n < q * d + d
    ensures n / d == q
  {
    assert q * d + d == (q + 1) * d;
    Quotient(n, d, q, q + 1);
  }

  lemma DivGrows(a: nat, b: nat, d: nat)
    requires d > 0 && a <= b
    ensures a / d <= b / d
  {
    DivBounds(a, d);
    DivBounds(b, d);
    ProductGrows(b / d + 1, a / d, d);
  }
}
