/** Facts about products and quotients that several modules need. */
module Arith {
  lemma ProductAtLeast(x: nat, d: nat)
    requires x >= 1
    ensures x * d >= d
  {}

  lemma Distribute(x: int, y: int, d: int)
    ensures (x - y) * d == x * d - y * d
    ensures (x + y) * d == x * d + y * d
  {}

  lemma ProductMonotone(x: nat, y: nat, d: nat)
    requires x <= y
    ensures x * d <= y * d
  {
    Distribute(y, x, d);
    if x < y { ProductAtLeast(y - x, d); }
  }

  lemma Unique(d: nat, q: nat, r: nat, q': nat, r': nat)
    requires q * d + r == q' * d + r' && r < d && r' < d
    ensures q == q' && r == r'
  {
    if q < q' {
      ProductAtLeast(q' - q, d);
      Distribute(q', q, d);
    } else if q' < q {
      ProductAtLeast(q - q', d);
      Distribute(q, q', d);
    }
  }

  lemma DivMod(n: nat, d: nat)
    requires d > 0
    ensures n == (n / d) * d + n % d && 0 <= n % d < d && n / d >= 0
  {}

  lemma QuotientUnique(n: nat, d: nat, q: nat, r: nat)
    requires d > 0 && n == q * d + r && r < d
    ensures n % d == r && n / d == q
  {
    DivMod(n, d);
    Unique(d, q, r, n / d, n % d);
  }
}
