/** The level of a key in ConcurrentBSkipList: trailing zero digits of its mixed hash. */
module BSkipHeight {
  import opened Words
  import opened Arith

  const FIBONACCI_MIX: nat := 0x9E37_79B9_7F4A_7C15

  /** Number of trailing zero bits of a non-zero word. */
  function TrailingZeros(n: nat): nat
    requires n > 0
  {
    if n % 2 == 1 then 0 else 1 + TrailingZeros(n / 2)
  }

  function Mixed(hash: nat, width: nat): nat {
    (hash * FIBONACCI_MIX) % Pow2(width)
  }

  /** topLevelForKey on the 64-bit hash of the key. */
  function TopLevelForHash(hash: nat, bitsPerDigit: nat, maxHeight: nat): (level: nat)
    requires bitsPerDigit > 0 && maxHeight > 0
    ensures level < maxHeight
  {
    var mixed := Mixed(hash, 64);
    if mixed == 0 then maxHeight - 1
    else
      var digit := TrailingZeros(mixed) / bitsPerDigit;
      if digit < maxHeight - 1 then digit else maxHeight - 1
  }

  lemma DoubledProduct(h: nat, m: nat)
    ensures (2 * h) * m == 2 * (h * m)
  {}

  lemma OddProduct(h: nat, m: nat)
    requires h % 2 == 1 && m % 2 == 1
    ensures (h * m) % 2 == 1
  {
    var a := h / 2;
    assert h == 2 * a + 1;
    DoubledProduct(a, m);
    Distribute(2 * a, 1, m);
    EvenPlus(a * m, m, h * m);
  }

  lemma HalfModulus(x: nat, w: nat)
    requires w > 0
    ensures x % Pow2(w) % 2 == x % 2
    ensures (2 * x) % Pow2(w) == 2 * (x % Pow2(w - 1))
  {
    var p := Pow2(w - 1);
    var q, r := x / (2 * p), x % (2 * p);
    DivMod(x, 2 * p);
    TwiceOut(q, p);
    var q', r' := x / p, x % p;
    DivMod(x, p);
    TwiceOut(q', p);
    DoubleFact(x, p, q', r');
    QuotientUnique(2 * x, 2 * p, q', 2 * r');
    EvenPlus(q * p, r, x);
  }

  lemma TwiceOut(q: nat, p: nat)
    ensures q * (2 * p) == 2 * (q * p)
  {}

  lemma DoubleFact(x: nat, p: nat, q: nat, r: nat)
    requires x == q * p + r
    ensures 2 * x == 2 * (q * p) + 2 * r
  {}

  lemma EvenPlus(m: nat, r: nat, x: nat)
    requires x == 2 * m + r
    ensures r % 2 == x % 2
  {}

  /** Multiplying by an odd constant modulo a power of two keeps the trailing zeros of a word. */
  lemma {:induction false} OddMixKeepsTrailingZeros(hash: nat, m: nat, w: nat)
    requires 0 < hash < Pow2(w) && m % 2 == 1
    ensures (hash * m) % Pow2(w) > 0
    ensures TrailingZeros((hash * m) % Pow2(w)) == TrailingZeros(hash)
    decreases w
  {
    if hash % 2 == 1 {
      OddProduct(hash, m);
      HalfModulus(hash * m, w);
    } else {
      var h := hash / 2;
      assert hash == 2 * h;
      OddMixKeepsTrailingZeros(h, m, w - 1);
      DoubledProduct(h, m);
      HalfModulus(h * m, w);
      var x := (h * m) % Pow2(w - 1);
      assert (2 * x) / 2 == x && (2 * x) % 2 == 0;
    }
  }

  /** The mix does not change any level: it depends on the trailing zeros of the hash alone, and only
      the zero hash and hashes with enough trailing zeros reach the highest level. */
  lemma LevelOfHash(hash: nat, bitsPerDigit: nat, maxHeight: nat)
    requires hash < Pow2(64) && bitsPerDigit > 0 && maxHeight > 0
    ensures hash == 0 ==> TopLevelForHash(hash, bitsPerDigit, maxHeight) == maxHeight - 1
    ensures hash > 0 ==> TopLevelForHash(hash, bitsPerDigit, maxHeight) ==
                         (if TrailingZeros(hash) / bitsPerDigit < maxHeight - 1 then
                             TrailingZeros(hash) / bitsPerDigit else maxHeight - 1)
  {
    if hash > 0 {
      OddMixKeepsTrailingZeros(hash, FIBONACCI_MIX, 64);
    } else {
      ZeroMod(64);
    }
  }

  lemma ZeroMod(w: nat)
    ensures 0 % Pow2(w) == 0
  {}

  /** A key reaches level l exactly if its hash ends in l zero digits. */
  lemma ReachesLevel(hash: nat, bitsPerDigit: nat, maxHeight: nat, l: nat)
    requires hash < Pow2(64) && bitsPerDigit > 0 && l < maxHeight
    ensures l <= TopLevelForHash(hash, bitsPerDigit, maxHeight) <==> hash % Pow2(l * bitsPerDigit) == 0
  {
    LevelOfHash(hash, bitsPerDigit, maxHeight);
    ZeroMod(l * bitsPerDigit);
    if hash > 0 {
      ZerosDivide(hash, l * bitsPerDigit);
      DigitCount(TrailingZeros(hash), bitsPerDigit, l);
    }
  }

  lemma DigitCount(t: nat, d: nat, l: nat)
    requires d > 0
    ensures l <= t / d <==> l * d <= t
  {
    var q := t / d;
    DivMod(t, d);
    if l <= q {
      ProductMonotone(l, q, d);
    } else {
      ProductMonotone(q + 1, l, d);
      Distribute(q, 1, d);
    }
  }

  lemma {:induction false} ZerosDivide(n: nat, z: nat)
    requires n > 0
    ensures n % Pow2(z) == 0 <==> z <= TrailingZeros(n)
  {
    if z > 0 {
      HalfModulus(n, z);
      if n % 2 == 0 {
        HalfModulus(n / 2, z);
        ZerosDivide(n / 2, z - 1);
      }
    }
  }
}
