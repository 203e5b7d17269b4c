/** 128-bit integers to text: to_ascii, unsafeTelescope128 and toAppend. */
module ConvPrint {
  import opened Decimal
  import opened Conv

  const WORD: nat := 0x1_0000_0000_0000_0000
  /** The largest power of ten in a 64-bit word, and its exponent. */
  const BASE: nat := 10_000_000_000_000_000_000
  const BASE_DIGITS: nat := 19
  /** Powers of ten in the 64-bit table. */
  const POWERS: nat := 20

  /** The number of digits of a 64-bit value: the first power of ten above it. */
  method AsciiSize(v: nat) returns (n: nat)
    requires v < WORD
    ensures IsSize(v, n) && n <= POWERS
  {
    var i := 0;
    while i < POWERS
      invariant i <= POWERS && (i > 0 ==> Pow10(i - 1) <= v)
    {
      if v < Pow10(i) {
        return if i == 0 then 1 else i;
      }
      i := i + 1;
    }
    Powers();
    return POWERS;
  }

  /** to_ascii_with_table: two digits at a time, from the back, padded with zeros. */
  method WriteDigits(out: array<char>, at: nat, size: nat, value: nat)
    requires at + size <= out.Length && 0 < size && value < Pow10(size)
    modifies out
    ensures out[at..at + size] == Padded(value, size)
    ensures forall k | 0 <= k < out.Length && !(at <= k < at + size) :: out[k] == old(out[k])
  {
    hide Padded, Pow10, DigitOf;
    var pos: nat, v: nat := size, value;
    Same(out, at + size);
    while pos > 2
      invariant 0 < pos <= size && v < Pow10(pos)
      invariant Padded(value, size) == Padded(v, pos) + out[at + pos..at + size]
      invariant forall k | 0 <= k < out.Length && !(at <= k < at + size) :: out[k] == old(out[k])
    {
      ghost var written := out[at + pos..at + size];
      TwoDigits(v, pos);
      pos := pos - 2;
      var q, r := v / 100, v % 100;
      out[at + pos], out[at + pos + 1] := CharOf(r / 10), CharOf(r % 10);
      assert out[at + pos..at + size] == [CharOf(r / 10), CharOf(r % 10)] + written;
      v := q;
    }
    ghost var written := out[at + pos..at + size];
    FirstDigits(v, pos);
    if pos == 2 {
      out[at], out[at + 1] := CharOf(v / 10), CharOf(v % 10);
      assert out[at..at + size] == [CharOf(v / 10), CharOf(v % 10)] + written;
    } else {
      out[at] := CharOf(v);
      assert out[at..at + size] == [CharOf(v)] + written;
    }
  }

  lemma Same(out: array<char>, end: nat)
    requires end <= out.Length
    ensures out[end..end] == []
  {
  }

  lemma TwoDigits(v: nat, n: nat)
    requires n >= 2 && v < Pow10(n)
    ensures Padded(v, n) == Padded(v / 100, n - 2) + [CharOf(v % 100 / 10), CharOf(v % 100 % 10)]
    ensures v / 100 < Pow10(n - 2)
  {
    assert Padded(v, n) == Padded(v / 10, n - 1) + [CharOf(v % 10)];
    assert Padded(v / 10, n - 1) == Padded(v / 10 / 10, n - 2) + [CharOf(v / 10 % 10)];
    assert v / 10 / 10 == v / 100 && v / 10 % 10 == v % 100 / 10 && v % 10 == v % 100 % 10;
  }

  lemma FirstDigits(v: nat, n: nat)
    requires 1 <= n <= 2 && v < Pow10(n)
    ensures n == 1 ==> v < 10 && Padded(v, n) == [CharOf(v)]
    ensures n == 2 ==> v < 100 && Padded(v, n) == [CharOf(v / 10), CharOf(v % 10)]
  {
    hide Padded;
    Powers();
    if n == 2 {
      TwoDigits(v, n);
      assert Padded(v / 100, 0) == "";
    } else {
      LastDigit(v, 1);
      assert Padded(v / 10, 0) == "";
    }
  }

  /** The digits of x stand in out from `at`, as many as x has. */
  ghost predicate Stands(out: array<char>, at: nat, p: nat, x: nat)
    reads out
  {
    at + p <= out.Length && IsSize(x, p) && out[at..at + p] == Padded(x, p)
  }

  /** unsafeTelescope128's leading piece. */
  method Leading(out: array<char>, at: nat, x: nat) returns (p: nat)
    requires x < WORD && at + POWERS <= out.Length
    modifies out
    ensures Stands(out, at, p, x) && p <= POWERS
    ensures forall k | 0 <= k < at :: out[k] == old(out[k])
  {
    p := AsciiSize(x);
    WriteDigits(out, at, p, x);
  }

  /** unsafeTelescope128's further pieces, each padded to nineteen digits. */
  method Further(out: array<char>, at: nat, p: nat, high: nat, low: nat) returns (p': nat)
    requires Stands(out, at, p, high) && 0 < high && low < BASE && at + p + BASE_DIGITS <= out.Length
    modifies out
    ensures p' == p + BASE_DIGITS && Stands(out, at, p', high * BASE + low)
    ensures forall k | 0 <= k < at :: out[k] == old(out[k])
  {
    hide Padded, IsSize, Pow10;
    Powers();
    ghost var before := out[at..at + p];
    WriteDigits(out, at + p, BASE_DIGITS, low);
    p' := p + BASE_DIGITS;
    assert out[at..at + p] == before;
    assert out[at..at + p'] == out[at..at + p] + out[at + p..at + p'];
    SizeOfParts(high, low, p, BASE_DIGITS);
    PaddedParts(high, low, p, BASE_DIGITS);
  }

  /** unsafeTelescope128: at most three pieces in base 10^19, with no room to spare for 39 digits. */
  method Telescope128(out: array<char>, at: nat, x: nat) returns (p: nat)
    requires x < Modulus(128) && at + 39 <= out.Length
    modifies out
    ensures Stands(out, at, p, x) && p <= 39
    ensures forall k | 0 <= k < at :: out[k] == old(out[k])
  {
    hide Padded, IsSize;
    if x / WORD > 0 {
      var rem, y := x % BASE, x / BASE;
      Quotient(x);
      if y / WORD > 0 {
        var rem2, z := y % BASE, y / BASE;
        QuotientTwice(y);
        p := Leading(out, at, z);
        OneDigit(z, p);
        p := Further(out, at, p, z, rem2);
        p := Further(out, at, p, y, rem);
      } else {
        p := Leading(out, at, y);
        p := Further(out, at, p, y, rem);
      }
    } else {
      p := Leading(out, at, x);
    }
  }

  lemma Quotient(x: nat)
    requires WORD <= x < Modulus(128)
    ensures x == (x / BASE) * BASE + x % BASE && x % BASE < BASE
    ensures 0 < x / BASE < 34_028_236_692_093_846_347
  {
  }

  lemma QuotientTwice(y: nat)
    requires WORD <= y < 34_028_236_692_093_846_347
    ensures y == (y / BASE) * BASE + y % BASE && y % BASE < BASE && 0 < y / BASE < 4
  {
  }

  lemma OneDigit(z: nat, p: nat)
    requires z < 10 && IsSize(z, p)
    ensures p == 1
  {
    Powers();
    if p > 1 {
      PowMonotone(1, p - 1);
    }
  }

  // ------------------------------------------------------------------- toAppend

  /** The text is the value in decimal: no leading zeros, a minus sign if it is negative. */
  ghost predicate IsDecimal(text: string, value: int) {
    if value < 0 then
      |text| > 1 && text[0] == '-' && IsSize(-value, |text| - 1) && text[1..] == Padded(-value, |text| - 1)
    else
      IsSize(value, |text|) && text == Padded(value, |text|)
  }

  /** toAppend for __int128 and unsigned __int128, in a buffer of digitsEnough characters. */
  method ToAppend128(t: Integral, value: int) returns (text: string)
    requires t.bits == 128 && Least(t) <= value <= Greatest(t)
    ensures IsDecimal(text, value)
  {
    hide Padded, Pow10;
    if t.signed {
      var buffer := new char[40];
      if value < 0 {
        buffer[0] := '-';
        Negated(value);
        var p := Telescope128(buffer, 1, Wrap(128, Modulus(128) - AsUnsigned(value)));
        text := buffer[..1 + p];
        assert text[1..] == buffer[1..1 + p];
      } else {
        var p := Telescope128(buffer, 0, value);
        text := buffer[..p];
      }
    } else {
      var buffer := new char[39];
      var p := Telescope128(buffer, 0, value);
      text := buffer[..p];
    }
  }

  /** A signed value as the unsigned type sees it. */
  function AsUnsigned(value: int): nat
    requires -(Modulus(128) / 2) <= value < Modulus(128)
  {
    if value < 0 then value + Modulus(128) else value
  }

  /** Negating in the unsigned type gives the magnitude. */
  lemma Negated(value: int)
    requires -(Modulus(128) / 2) <= value < 0
    ensures Wrap(128, Modulus(128) - AsUnsigned(value)) == -value
  {
    NoWrap(128, -value);
  }

  // ------------------------------------------------------------------ round trip

  /** Parsing the decimal text of a value gives it back and stops at the first non-digit. */
  lemma PrintedThenParsed(t: Integral, value: int, text: string, tail: string)
    requires Exists(t.bits) && Least(t) <= value <= Greatest(t) && IsDecimal(text, value)
    requires tail == "" || !IsDigit(tail[0])
    ensures Parsed(t, text + tail) == (Ok(value), tail)
  {
    hide Padded, IsSize, Value, Modulus, Run, Pow10;
    var magnitude: nat := if value < 0 then -value else value;
    var digits := if value < 0 then text[1..] else text;
    var src := text + tail;
    DigitsRead(magnitude, |digits|);
    assert IsDigit(digits[0]);
    assert src[0] == text[0];
    assert Trimmed(src) == src;
    var u := Unsigned(t, src);
    assert u == digits + tail;
    assert u[..|digits|] == digits && u[|digits|..] == tail;
    RunIs(u, |digits|);
  }

  lemma DigitsRead(v: nat, n: nat)
    requires IsSize(v, n)
    ensures n > 0 && Value(Padded(v, n)) == v
  {
    ReadPadded(v, n);
  }

  /** The two methods together, on every 128-bit value. */
  method PrintAndParse(t: Integral, value: int, tail: string) returns (r: Result, rest: string)
    requires t.bits == 128 && Least(t) <= value <= Greatest(t) && (tail == "" || !IsDigit(tail[0]))
    ensures r == Ok(value) && rest == tail
  {
    var text := ToAppend128(t, value);
    PrintedThenParsed(t, value, text, tail);
    r, rest := StrToIntegral(t, text + tail);
  }
}
