/** Unsigned machine words as naturals, with the C operators on them read bit by bit. */
module Words {

  function Pow2(n: nat): (p: nat)
    ensures p >= 1
  {
    if n == 0 then 1 else 2 * Pow2(n - 1)
  }

  /** Bit i of the word w. */
  predicate Bit(w: nat, i: nat)
    decreases i
  {
    if i == 0 then w % 2 == 1 else Bit(w / 2, i - 1)
  }

  function BitAnd(a: nat, b: nat): nat {
    if a == 0 || b == 0 then 0
    else 2 * BitAnd(a / 2, b / 2) + (if a % 2 == 1 && b % 2 == 1 then 1 else 0)
  }

  function BitOr(a: nat, b: nat): nat
    decreases a + b
  {
    if a == 0 then b else if b == 0 then a
    else 2 * BitOr(a / 2, b / 2) + (if a % 2 == 1 || b % 2 == 1 then 1 else 0)
  }

  /** ~a in a word of width bits. */
  function BitNot(a: nat, width: nat): nat
    decreases width
  {
    if width == 0 then 0 else 2 * BitNot(a / 2, width - 1) + (if a % 2 == 1 then 0 else 1)
  }

  function ShiftRight(a: nat, s: nat): nat
    decreases s
  {
    if s == 0 then a else ShiftRight(a / 2, s - 1)
  }

  /** a << s, truncated to a word of width bits. */
  function ShiftLeft(a: nat, s: nat, width: nat): nat {
    Truncate(Double(a, s), width)
  }

  function Double(a: nat, times: nat): nat
    decreases times
  {
    if times == 0 then a else 2 * Double(a, times - 1)
  }

  function Truncate(a: nat, width: nat): nat
    decreases width
  {
    if width == 0 then 0 else 2 * Truncate(a / 2, width - 1) + a % 2
  }

  lemma {:induction false} ZeroBits(i: nat)
    ensures !Bit(0, i)
  {
    if i > 0 { ZeroBits(i - 1); }
  }

  lemma {:induction false} AndBit(a: nat, b: nat, i: nat)
    ensures Bit(BitAnd(a, b), i) <==> Bit(a, i) && Bit(b, i)
  {
    if a == 0 || b == 0 {
      ZeroBits(i);
    } else if i > 0 {
      AndBit(a / 2, b / 2, i - 1);
    }
  }

  lemma {:induction false} OrBit(a: nat, b: nat, i: nat)
    ensures Bit(BitOr(a, b), i) <==> Bit(a, i) || Bit(b, i)
    decreases i
  {
    if a == 0 || b == 0 {
      ZeroBits(i);
    } else if i > 0 {
      OrBit(a / 2, b / 2, i - 1);
    }
  }

  lemma {:induction false} NotBit(a: nat, width: nat, i: nat)
    ensures Bit(BitNot(a, width), i) <==> i < width && !Bit(a, i)
    decreases width
  {
    if width == 0 {
      ZeroBits(i);
    } else if i > 0 {
      NotBit(a / 2, width - 1, i - 1);
    }
  }

  lemma {:induction false} RightBit(a: nat, s: nat, i: nat)
    ensures Bit(ShiftRight(a, s), i) <==> Bit(a, i + s)
    decreases s
  {
    if s > 0 { RightBit(a / 2, s - 1, i); }
  }

  lemma {:induction false} TruncateBit(a: nat, width: nat, i: nat)
    ensures Bit(Truncate(a, width), i) <==> i < width && Bit(a, i)
    decreases width
  {
    if width == 0 {
      ZeroBits(i);
    } else if i > 0 {
      TruncateBit(a / 2, width - 1, i - 1);
    }
  }

  lemma {:induction false} DoubleBit(a: nat, s: nat, i: nat)
    ensures Bit(Double(a, s), i) <==> i >= s && Bit(a, i - s)
    decreases s
  {
    if s > 0 && i > 0 { DoubleBit(a, s - 1, i - 1); }
  }

  lemma LeftBit(a: nat, s: nat, width: nat, i: nat)
    ensures Bit(ShiftLeft(a, s, width), i) <==> s <= i < width && Bit(a, i - s)
  {
    TruncateBit(Double(a, s), width, i);
    DoubleBit(a, s, i);
  }

  /** (1 << s) - 1 has exactly the bits below s. */
  lemma {:induction false} MaskBit(s: nat, i: nat)
    ensures Bit(Pow2(s) - 1, i) <==> i < s
    decreases s
  {
    if s == 0 {
      ZeroBits(i);
    } else {
      var m := Pow2(s) - 1;
      assert m / 2 == Pow2(s - 1) - 1 && m % 2 == 1;
      if i > 0 { MaskBit(s - 1, i - 1); }
    }
  }

  /** 1 << s has exactly bit s. */
  lemma {:induction false} OneBit(s: nat, i: nat)
    ensures Bit(Pow2(s), i) <==> i == s
    decreases s
  {
    if s == 0 {
      if i > 0 { ZeroBits(i - 1); }
    } else {
      assert Pow2(s) / 2 == Pow2(s - 1) && Pow2(s) % 2 == 0;
      if i > 0 { OneBit(s - 1, i - 1); }
    }
  }
}
