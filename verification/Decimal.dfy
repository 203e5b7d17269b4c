/** Decimal notation: schoolbook evaluation of digit strings and their writing. */
module Decimal {
  import Arith

  predicate IsDigit(c: char) { '0' <= c <= '9' }

  predicate AllDigits(s: string) {
    forall k | 0 <= k < |s| :: IsDigit(s[k])
  }

  function DigitOf(c: char): (d: nat)
    requires IsDigit(c)
    ensures d <= 9
  {
    c as int - '0' as int
  }

  function CharOf(d: nat): (c: char)
    requires d <= 9
    ensures IsDigit(c) && DigitOf(c) == d
  {
    '0' + d as char
  }

  function Pow10(n: nat): (p: nat)
    ensures p > 0
  {
    if n == 0 then 1 else 10 * Pow10(n - 1)
  }

  /** The number a digit string denotes. */
  function Value(s: string): nat
    requires AllDigits(s)
  {
    if s == "" then 0 else 10 * Value(s[..|s| - 1]) + DigitOf(s[|s| - 1])
  }

  /** The n lowest decimal digits of v. */
  function Padded(v: nat, n: nat): (s: string)
    ensures |s| == n && AllDigits(s)
  {
    if n == 0 then "" else Padded(v / 10, n - 1) + [CharOf(v % 10)]
  }

  /** n is the number of digits of v. */
  predicate IsSize(v: nat, n: nat) {
    0 < n && v < Pow10(n) && (n == 1 || Pow10(n - 1) <= v)
  }

  // -------------------------------------------------------------------- powers

  lemma {:induction false} PowAdd(a: nat, b: nat)
    ensures Pow10(a + b) == Pow10(a) * Pow10(b)
  {
    if b > 0 {
      PowAdd(a, b - 1);
      var p, q := Pow10(a), Pow10(b - 1);
      Tenfold(p, q);
      assert Pow10(a + b) == 10 * Pow10(a + (b - 1));
    }
  }

  lemma Tenfold(p: nat, q: nat)
    ensures p * (10 * q) == 10 * (p * q) && (10 * p) * q == 10 * (p * q)
  {
  }

  lemma {:induction false} PowMonotone(a: nat, b: nat)
    requires a <= b
    ensures Pow10(a) <= Pow10(b)
  {
    if a < b {
      PowMonotone(a, b - 1);
    }
  }

  lemma Powers()
    ensures Pow10(1) == 10 && Pow10(2) == 100 && Pow10(3) == 1000 && Pow10(4) == 10_000
    ensures Pow10(9) == 1_000_000_000 && Pow10(10) == 10_000_000_000
    ensures Pow10(19) == 10_000_000_000_000_000_000 && Pow10(20) == 100_000_000_000_000_000_000
    ensures Pow10(38) == 100_000_000_000_000_000_000_000_000_000_000_000_000
  {
    assert Pow10(1) == 10 && Pow10(2) == 100 && Pow10(3) == 1000 && Pow10(4) == 10_000;
    assert Pow10(5) == 100_000 && Pow10(6) == 1_000_000 && Pow10(7) == 10_000_000;
    assert Pow10(8) == 100_000_000 && Pow10(9) == 1_000_000_000 && Pow10(10) == 10_000_000_000;
    PowAdd(9, 10);
    PowAdd(10, 10);
    PowAdd(19, 19);
  }

  // -------------------------------------------------------------------- values

  lemma {:induction false} ValueBound(s: string)
    requires AllDigits(s)
    ensures Value(s) < Pow10(|s|)
  {
    if s != "" {
      ValueBound(s[..|s| - 1]);
    }
  }

  lemma {:induction false} ValueConcat(a: string, b: string)
    requires AllDigits(a) && AllDigits(b)
    ensures AllDigits(a + b) && Value(a + b) == Value(a) * Pow10(|b|) + Value(b)
  {
    if b == "" {
      assert a + b == a;
    } else {
      var b0 := b[..|b| - 1];
      ValueConcat(a, b0);
      assert (a + b)[..|a + b| - 1] == a + b0;
      Tenfold(Value(a), Pow10(|b0|));
    }
  }

  lemma ValueHead(s: string)
    requires AllDigits(s) && s != ""
    ensures Value(s) == DigitOf(s[0]) * Pow10(|s| - 1) + Value(s[1..])
  {
    ValueConcat(s[..1], s[1..]);
    assert s[..1] + s[1..] == s;
    assert Value(s[..1]) == DigitOf(s[0]) by {
      assert s[..1][..0] == "";
    }
  }

  /** One more digit of s. */
  lemma Extend(s: string, k: nat, v: nat)
    requires AllDigits(s) && k < |s| && Value(s[..k]) == v
    ensures Value(s[..k + 1]) == 10 * v + DigitOf(s[k])
  {
    assert s[..k + 1][..k] == s[..k];
  }

  /** Four more digits of s. */
  lemma Extend4(s: string, k: nat, v: nat)
    requires AllDigits(s) && k + 4 <= |s| && Value(s[..k]) == v
    ensures Value(s[..k + 4]) ==
            10_000 * v + 1000 * DigitOf(s[k]) + 100 * DigitOf(s[k + 1]) + 10 * DigitOf(s[k + 2]) + DigitOf(s[k + 3])
  {
    hide Value;
    Extend(s, k, v);
    Extend(s, k + 1, Value(s[..k + 1]));
    Extend(s, k + 2, Value(s[..k + 2]));
    Extend(s, k + 3, Value(s[..k + 3]));
  }

  /** Leading zeros add nothing. */
  lemma {:induction false} ZerosVanish(s: string, k: nat)
    requires AllDigits(s) && k <= |s| && forall j | 0 <= j < k :: s[j] == '0'
    ensures Value(s) == Value(s[k..])
  {
    if k == 0 {
      assert s[0..] == s;
    } else {
      ZerosVanish(s[1..], k - 1);
      ValueHead(s);
      assert s[1..][k - 1..] == s[k..];
    }
  }

  /** Lexicographic comparison of strings of one length, as strncmp makes it. */
  predicate Greater(a: string, b: string)
    requires |a| == |b|
  {
    a != "" && (a[0] > b[0] || (a[0] == b[0] && Greater(a[1..], b[1..])))
  }

  /** On digit strings of one length it is the comparison of their values. */
  lemma {:induction false} GreaterIsMore(a: string, b: string)
    requires |a| == |b| && AllDigits(a) && AllDigits(b)
    ensures Greater(a, b) <==> Value(a) > Value(b)
  {
    if a != "" {
      var a1, b1, p := a[1..], b[1..], Pow10(|a| - 1);
      GreaterIsMore(a1, b1);
      ValueHead(a);
      ValueHead(b);
      ValueBound(a1);
      ValueBound(b1);
      HeadDecides(DigitOf(a[0]), Value(a1), DigitOf(b[0]), Value(b1), p);
    }
  }

  lemma HeadDecides(x: nat, r: nat, y: nat, s: nat, p: nat)
    requires r < p && s < p
    ensures x * p + r > y * p + s <==> x > y || (x == y && r > s)
  {
    if x > y {
      Arith.ProductMonotone(y + 1, x, p);
      Arith.Distribute(y, 1, p);
    } else if y > x {
      Arith.ProductMonotone(x + 1, y, p);
      Arith.Distribute(x, 1, p);
    }
  }

  // ------------------------------------------------------------------- writing

  /** Reading back the digits of v. */
  lemma {:induction false} ReadPadded(v: nat, n: nat)
    requires v < Pow10(n)
    ensures Value(Padded(v, n)) == v
  {
    if n > 0 {
      ReadPadded(v / 10, n - 1);
      assert Padded(v, n)[..n - 1] == Padded(v / 10, n - 1);
    }
  }

  /** The high digits and the low ones, side by side. */
  lemma {:induction false} PaddedParts(high: nat, low: nat, m: nat, n: nat)
    requires low < Pow10(n)
    ensures Padded(high * Pow10(n) + low, m + n) == Padded(high, m) + Padded(low, n)
  {
    hide Padded;
    if n > 0 {
      PaddedParts(high, low / 10, m, n - 1);
      var last := [CharOf(low % 10)];
      assert Padded(high * Pow10(n) + low, m + n) == Padded(high * Pow10(n - 1) + low / 10, m + n - 1) + last by {
        LowDigit(high, Pow10(n - 1), low);
        LastDigit(high * Pow10(n) + low, m + n);
      }
      LastDigit(low, n);
    } else {
      assert Padded(low, 0) == "";
    }
  }

  lemma LastDigit(v: nat, n: nat)
    requires n > 0
    ensures Padded(v, n) == Padded(v / 10, n - 1) + [CharOf(v % 10)]
  {
  }

  lemma LowDigit(high: nat, p: nat, low: nat)
    ensures (high * (10 * p) + low) / 10 == high * p + low / 10 && (high * (10 * p) + low) % 10 == low % 10
  {
    Tenfold(high, p);
    var hp := high * p;
    assert (10 * hp + low) / 10 == hp + low / 10;
  }

  /** The count of digits of a number made of a leading part and n more digits. */
  lemma SizeOfParts(high: nat, low: nat, m: nat, n: nat)
    requires IsSize(high, m) && high > 0 && low < Pow10(n)
    ensures IsSize(high * Pow10(n) + low, m + n)
  {
    var p := Pow10(n);
    PowAdd(m, n);
    PowAdd(m - 1, n);
    Arith.ProductMonotone(high + 1, Pow10(m), p);
    Arith.Distribute(high, 1, p);
    Arith.ProductMonotone(if m == 1 then 1 else Pow10(m - 1), high, p);
  }
}
