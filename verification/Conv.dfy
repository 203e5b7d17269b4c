/** Integers from text: digits_to, SignedValueHandler and str_to_integral. */
module Conv {
  import opened Decimal
  import Arith

  datatype Code =
    | EmptyInputString
    | NoDigits
    | NonDigitChar
    | InvalidLeadingChar
    | PositiveOverflow
    | NegativeOverflow

  datatype Result = Ok(value: int) | Err(code: Code)

  /** An integral type: its width and whether it is signed. */
  datatype Integral = Integral(bits: nat, signed: bool)

  predicate Exists(bits: nat) {
    bits in {8, 16, 32, 64, 128}
  }

  function Modulus(bits: nat): nat
    requires Exists(bits)
  {
    if bits == 8 then 0x100
    else if bits == 16 then 0x1_0000
    else if bits == 32 then 0x1_0000_0000
    else if bits == 64 then 0x1_0000_0000_0000_0000
    else 0x1_0000_0000_0000_0000_0000_0000_0000_0000
  }

  /** numeric_limits::digits10 of the unsigned type. */
  function Digits10(bits: nat): nat
    requires Exists(bits)
  {
    if bits == 8 then 2 else if bits == 16 then 4 else if bits == 32 then 9 else if bits == 64 then 19 else 38
  }

  /** MaxString: the largest value in decimal, the long ones in pieces. */
  function MaxText(bits: nat): string
    requires Exists(bits)
  {
    if bits == 8 then "255"
    else if bits == 16 then "65535"
    else if bits == 32 then "4294967295"
    else if bits == 64 then "1844674407" + "3709551615"
    else ("3402823669" + "2093846346") + ("3374607431" + "768211455")
  }

  function Least(t: Integral): int
    requires Exists(t.bits)
  {
    if t.signed then -(Modulus(t.bits) / 2) else 0
  }

  function Greatest(t: Integral): int
    requires Exists(t.bits)
  {
    if t.signed then Modulus(t.bits) / 2 - 1 else Modulus(t.bits) - 1
  }

  /** The error a number out of range gets, by its sign. */
  function Overflow(negative: bool): Code {
    if negative then NegativeOverflow else PositiveOverflow
  }

  /** The number itself, or the overflow error of its sign. */
  function Fitted(t: Integral, negative: bool, magnitude: nat): Result
    requires Exists(t.bits)
  {
    var v: int := if negative then 0 - magnitude else magnitude;
    if Least(t) <= v <= Greatest(t) then Ok(v) else Err(Overflow(negative))
  }

  // ------------------------------------------------------------ the constants

  /** MaxString spells the largest value, and digits10 digits always fit. */
  lemma MaxTextIsMax(bits: nat)
    requires Exists(bits)
    ensures |MaxText(bits)| == Digits10(bits) + 1 && AllDigits(MaxText(bits))
    ensures Value(MaxText(bits)) == Modulus(bits) - 1
    ensures Pow10(Digits10(bits)) < Modulus(bits)
  {
    hide Value;
    Powers();
    if bits == 8 { Max8(); }
    else if bits == 16 { Max16(); }
    else if bits == 32 { Max32(); }
    else if bits == 64 { Max64(); }
    else { Max128(); }
  }

  lemma Max8()
    ensures Value(MaxText(8)) == 255
  {
    hide Value;
    var s := MaxText(8);
    Start(s);
    Extend(s, 0, 0);
    Extend(s, 1, 2);
    Extend(s, 2, 25);
  }

  lemma Start(s: string)
    requires AllDigits(s)
    ensures Value(s[..0]) == 0 && s[..|s|] == s
  {
  }

  lemma Max16()
    ensures Value(MaxText(16)) == 65535
  {
    hide Value;
    var s := MaxText(16);
    Start(s);
    Extend4(s, 0, 0);
    Extend(s, 4, 6553);
  }

  lemma Max32()
    ensures Value(MaxText(32)) == 4294967295
  {
    hide Value;
    var s := MaxText(32);
    Start(s);
    Extend4(s, 0, 0);
    Extend4(s, 4, 4294);
    Extend(s, 8, 42949672);
    Extend(s, 9, 429496729);
  }

  /** Ten digits, read four, four and two at a time. */
  lemma Ten(s: string, v: nat)
    requires |s| == 10 && AllDigits(s)
    requires v == 1_000_000_000 * DigitOf(s[0]) + 100_000_000 * DigitOf(s[1]) + 10_000_000 * DigitOf(s[2]) +
                  1_000_000 * DigitOf(s[3]) + 100_000 * DigitOf(s[4]) + 10_000 * DigitOf(s[5]) +
                  1000 * DigitOf(s[6]) + 100 * DigitOf(s[7]) + 10 * DigitOf(s[8]) + DigitOf(s[9])
    ensures Value(s) == v
  {
    hide Value;
    Start(s);
    Extend4(s, 0, 0);
    Extend4(s, 4, Value(s[..4]));
    Extend(s, 8, Value(s[..8]));
    Extend(s, 9, Value(s[..9]));
  }

  lemma Max64()
    ensures |MaxText(64)| == 20 && AllDigits(MaxText(64)) && Value(MaxText(64)) == 18446744073709551615
  {
    hide Value;
    Ten("1844674407", 1844674407);
    Ten("3709551615", 3709551615);
    Powers();
    ValueConcat("1844674407", "3709551615");
  }

  lemma Max128()
    ensures |MaxText(128)| == 39 && AllDigits(MaxText(128))
    ensures Value(MaxText(128)) == 340282366920938463463374607431768211455
  {
    hide Value;
    High128();
    Low128();
    Powers();
    ValueConcat("3402823669" + "2093846346", "3374607431" + "768211455");
  }

  lemma High128()
    ensures |"3402823669" + "2093846346"| == 20 && AllDigits("3402823669" + "2093846346")
    ensures Value("3402823669" + "2093846346") == 34028236692093846346
  {
    hide Value;
    Ten("3402823669", 3402823669);
    Ten("2093846346", 2093846346);
    Powers();
    ValueConcat("3402823669", "2093846346");
  }

  lemma Low128()
    ensures |"3374607431" + "768211455"| == 19 && AllDigits("3374607431" + "768211455")
    ensures Value("3374607431" + "768211455") == 3374607431768211455
  {
    hide Value;
    Ten("3374607431", 3374607431);
    Last9("768211455");
    Powers();
    ValueConcat("3374607431", "768211455");
  }

  lemma Last9(s: string)
    requires s == "768211455"
    ensures AllDigits(s) && Value(s) == 768211455
  {
    hide Value;
    Start(s);
    Extend4(s, 0, 0);
    Extend4(s, 4, 7682);
    Extend(s, 8, 76821145);
  }

  // ------------------------------------------------------------------ digits_to

  /** The larger-than-any-four-digits mark of the lookup tables. */
  const OOR: nat := 10_000

  /** The lookup tables shift1 to shift1000: a digit's value times the shift. */
  function Shift(c: char, shift: nat): nat {
    if IsDigit(c) then shift * DigitOf(c) else OOR
  }

  /** Text that the overflow test lets through. */
  predicate Passes(bits: nat, s: string)
    requires Exists(bits)
  {
    |s| <= Digits10(bits) ||
    (|s| == Digits10(bits) + 1 && |MaxText(bits)| == |s| && !Greater(s, MaxText(bits)))
  }

  /** What passed is in range as far as it is digits. */
  lemma PrefixInRange(bits: nat, s: string, k: nat)
    requires Exists(bits) && Passes(bits, s) && k <= |s| && AllDigits(s[..k])
    ensures Value(s[..k]) < Modulus(bits)
  {
    hide Value, Greater;
    MaxTextIsMax(bits);
    if k <= Digits10(bits) {
      ValueBound(s[..k]);
      PowMonotone(k, Digits10(bits));
    } else {
      assert s[..k] == s;
      GreaterIsMore(s, MaxText(bits));
    }
  }

  /** What did not pass is out of range if it is digits without a leading zero. */
  lemma TooLong(bits: nat, s: string)
    requires Exists(bits) && !Passes(bits, s) && AllDigits(s) && s != "" && s[0] != '0'
    ensures Value(s) >= Modulus(bits)
  {
    hide Value, Greater;
    MaxTextIsMax(bits);
    var n := Digits10(bits) + 1;
    if |s| == n {
      GreaterIsMore(s, MaxText(bits));
    } else {
      ValueHead(s);
      ValueBound(MaxText(bits));
      PowMonotone(n, |s| - 1);
      Arith.ProductAtLeast(DigitOf(s[0]), Pow10(|s| - 1));
    }
  }

  /** Arithmetic in the unsigned type. */
  function Wrap(bits: nat, x: nat): nat
    requires Exists(bits)
  {
    x % Modulus(bits)
  }

  lemma NoWrap(bits: nat, x: nat)
    requires Exists(bits) && x < Modulus(bits)
    ensures Wrap(bits, x) == x
  {
  }

  /** The digits in groups of four and a last group of up to three. */
  method Accumulate(bits: nat, s: string) returns (digits: bool, result: nat)
    requires Exists(bits) && Passes(bits, s)
    ensures digits == AllDigits(s)
    ensures digits ==> result == Value(s) && result < Modulus(bits)
  {
    hide Value, Greater, Passes, Modulus, Wrap;
    var i := 0;
    result := 0;
    PrefixInRange(bits, s, 0);
    Start(s[..0]);
    while |s| - i >= 4
      invariant i <= |s| && AllDigits(s[..i]) && result == Value(s[..i]) && result < Modulus(bits)
    {
      var sum := Shift(s[i], 1000) + Shift(s[i + 1], 100) + Shift(s[i + 2], 10) + Shift(s[i + 3], 1);
      if sum >= OOR {
        NotDigits(s, i, i + 4);
        return false, 0;
      }
      FourMore(bits, s, i, result);
      NoWrap(bits, 10_000);
      NoWrap(bits, result * 10_000);
      NoWrap(bits, sum);
      NoWrap(bits, result * 10_000 + sum);
      result := Wrap(bits, result * Wrap(bits, 10_000));
      result := Wrap(bits, result + Wrap(bits, sum));
      i := i + 4;
    }
    digits, result := LastGroup(bits, s, i, result);
  }

  /** The switch over the one, two or three characters left. */
  method LastGroup(bits: nat, s: string, i: nat, prefix: nat) returns (digits: bool, result: nat)
    requires Exists(bits) && Passes(bits, s)
    requires i <= |s| < i + 4 && AllDigits(s[..i]) && prefix == Value(s[..i]) && prefix < Modulus(bits)
    ensures digits == AllDigits(s)
    ensures digits ==> result == Value(s) && result < Modulus(bits)
  {
    hide Value, Greater, Passes, Modulus, Wrap, MaxText;
    assert s[..|s|] == s;
    var left := |s| - i;
    result := prefix;
    if left > 0 {
      var shift := if left == 3 then 100 else if left == 2 then 10 else 1;
      var sum := Shift(s[i], shift);
      if left > 1 {
        sum := sum + Shift(s[i + 1], shift / 10);
      }
      if left > 2 {
        sum := sum + Shift(s[i + 2], 1);
      }
      if sum >= OOR {
        NotDigits(s, i, |s|);
        return false, 0;
      }
      OneMore(bits, s, i, prefix);
      if left > 1 {
        OneMore(bits, s, i + 1, Value(s[..i + 1]));
      }
      if left > 2 {
        OneMore(bits, s, i + 2, Value(s[..i + 2]));
      }
      NoWrap(bits, 10 * shift * prefix + sum);
      result := Wrap(bits, 10 * shift * prefix + sum);
    }
    digits := true;
  }

  lemma NotDigits(s: string, i: nat, j: nat)
    requires i <= j <= |s| && exists k | i <= k < j :: !IsDigit(s[k])
    ensures !AllDigits(s)
  {
  }

  lemma OneMore(bits: nat, s: string, i: nat, v: nat)
    requires Exists(bits) && Passes(bits, s) && i < |s| && AllDigits(s[..i]) && IsDigit(s[i])
    requires v == Value(s[..i])
    ensures AllDigits(s[..i + 1]) && Value(s[..i + 1]) == 10 * v + DigitOf(s[i]) < Modulus(bits)
  {
    hide Value, Passes, Modulus;
    var p := s[..i + 1];
    assert p[..i] == s[..i] && p[..i + 1] == p;
    Extend(p, i, v);
    PrefixInRange(bits, s, i + 1);
  }

  lemma FourMore(bits: nat, s: string, i: nat, v: nat)
    requires Exists(bits) && Passes(bits, s) && i + 4 <= |s| && AllDigits(s[..i])
    requires forall k | i <= k < i + 4 :: IsDigit(s[k])
    requires v == Value(s[..i])
    ensures AllDigits(s[..i + 4]) && Value(s[..i + 4]) < Modulus(bits) && 10_000 < Modulus(bits)
    ensures Value(s[..i + 4]) ==
            10_000 * v + 1000 * DigitOf(s[i]) + 100 * DigitOf(s[i + 1]) + 10 * DigitOf(s[i + 2]) + DigitOf(s[i + 3])
  {
    hide Value, Greater;
    var p := s[..i + 4];
    assert p[..i] == s[..i] && p[..i + 4] == p;
    Extend4(p, i, v);
    PrefixInRange(bits, s, i + 4);
  }

  // --------------------------------------------------------- SignedValueHandler

  /** The two's complement reading of an unsigned value. */
  function AsSigned(bits: nat, x: nat): int
    requires Exists(bits) && x < Modulus(bits)
  {
    if x < Modulus(bits) / 2 then x else x - Modulus(bits)
  }

  /** finalize: negate in the unsigned type, convert, and look at the sign. */
  function Finalize(t: Integral, negative: bool, value: nat): Result
    requires Exists(t.bits) && value < Modulus(t.bits)
  {
    if !t.signed then Ok(value)
    else if negative then
      var rv := AsSigned(t.bits, Wrap(t.bits, Modulus(t.bits) - value));
      if rv > 0 then Err(NegativeOverflow) else Ok(rv)
    else
      var rv := AsSigned(t.bits, value);
      if rv < 0 then Err(PositiveOverflow) else Ok(rv)
  }

  /** The sign test finds exactly the values out of range. */
  lemma FinalizeFits(t: Integral, negative: bool, value: nat)
    requires Exists(t.bits) && value < Modulus(t.bits) && (negative ==> t.signed)
    ensures Finalize(t, negative, value) == Fitted(t, negative, value)
  {
    if value > 0 {
      NoWrap(t.bits, Modulus(t.bits) - value);
    }
  }

  /** Is the first character the handler's to take? */
  predicate IsSign(t: Integral, c: char) {
    t.signed && (c == '-' || c == '+')
  }

  /** The text behind the sign, if there is one. */
  function Unsigned(t: Integral, text: string): string {
    if text != "" && IsSign(t, text[0]) then text[1..] else text
  }

  predicate Negative(t: Integral, text: string) {
    text != "" && t.signed && text[0] == '-'
  }

  /** What text with an optional sign and only digits denotes in type t. */
  ghost function Schoolbook(t: Integral, text: string): Result
    requires Exists(t.bits) && AllDigits(Unsigned(t, text))
  {
    if Unsigned(t, text) == "" then Err(NoDigits)
    else Fitted(t, Negative(t, text), Value(Unsigned(t, text)))
  }

  /** What digits_to makes of such text when `next` is the character behind it. */
  ghost function Outcome(t: Integral, text: string, next: char): Result
    requires Exists(t.bits) && AllDigits(Unsigned(t, text))
  {
    if text != "" || !t.signed || IsDigit(next) then Schoolbook(t, text)
    else if IsSign(t, next) then Err(Overflow(next == '-'))
    else Err(InvalidLeadingChar)
  }

  /** Is the text the notation of a number outside the type? */
  ghost predicate OutsideType(t: Integral, text: string)
    requires Exists(t.bits) && AllDigits(Unsigned(t, text))
  {
    && Unsigned(t, text) != ""
    && var v: int := Value(Unsigned(t, text));
       !(Least(t) <= (if Negative(t, text) then -v else v) <= Greatest(t))
  }

  ghost predicate IsOverflow(r: Result) {
    r.Err? && (r.code == PositiveOverflow || r.code == NegativeOverflow)
  }

  /** Overflow is reported for exactly the numbers out of range, but for empty text in front of a sign. */
  lemma OverflowExactly(t: Integral, text: string, next: char)
    requires Exists(t.bits) && AllDigits(Unsigned(t, text))
    ensures (IsOverflow(Outcome(t, text, next)) <==> OutsideType(t, text)) <==> !(text == "" && IsSign(t, next))
  {
    hide Value, Modulus;
  }

  /** An empty range before a minus sign is called an overflow. */
  lemma EmptyBeforeSign()
    ensures Outcome(Integral(32, true), "", '-') == Err(NegativeOverflow) && !OutsideType(Integral(32, true), "")
  {
  }

  /**
   * digits_to.  `next` is what lies behind the text: the sign handler reads the
   * first character before anything asks whether there is one.
   */
  method DigitsTo(t: Integral, text: string, next: char) returns (r: Result)
    requires Exists(t.bits)
    ensures AllDigits(Unsigned(t, text)) ==> r == Outcome(t, text, next)
    ensures text != "" && t.signed && !IsDigit(text[0]) && !IsSign(t, text[0]) ==> r == Err(InvalidLeadingChar)
    ensures text != "" && !AllDigits(Unsigned(t, text)) ==>
              r in {Err(InvalidLeadingChar), Err(NonDigitChar), Err(Overflow(Negative(t, text)))}
  {
    hide Value, Greater, Modulus;
    var negative, b := false, 0;
    if t.signed {
      var first := if text == "" then next else text[0];
      if !IsDigit(first) {
        if first == '-' {
          negative := true;
        } else if first != '+' {
          return Err(InvalidLeadingChar);
        }
        b := 1;
      }
    }
    if b > |text| {
      // e - b has wrapped around to a size no type has the digits for.
      return Err(Overflow(negative));
    }
    assert text[b..] == Unsigned(t, text);
    r := DigitsBehindSign(t, negative, text[b..]);
  }

  /** digits_to once the sign is off. */
  method DigitsBehindSign(t: Integral, negative: bool, body: string) returns (r: Result)
    requires Exists(t.bits) && (negative ==> t.signed)
    ensures body == "" ==> r == Err(NoDigits)
    ensures body != "" && AllDigits(body) ==> r == Fitted(t, negative, Value(body))
    ensures !AllDigits(body) ==> r in {Err(NonDigitChar), Err(Overflow(negative))}
    ensures !AllDigits(body) && |body| <= Digits10(t.bits) ==> r == Err(NonDigitChar)
  {
    hide Value, Greater, Modulus, MaxText;
    var s := body;
    if |body| > Digits10(t.bits) {
      var zeros := LeadingZeros(body);
      if AllDigits(body) {
        ZerosVanish(body, zeros);
      }
      if zeros == |body| {
        MaxTextIsMax(t.bits);
        FinalizeFits(t, negative, 0);
        AllZero(body);
        return Ok(0);
      }
      s := body[zeros..];
      MaxTextIsMax(t.bits);
      if |s| > Digits10(t.bits) && (|s| != Digits10(t.bits) + 1 || Greater(s, MaxText(t.bits))) {
        if AllDigits(body) {
          TooLong(t.bits, s);
          OutOfRange(t, negative, Value(s));
        }
        return Err(Overflow(negative));
      }
      DigitsAfterZeros(body, zeros);
    }
    var digits, result := Accumulate(t.bits, s);
    if !digits {
      return Err(NonDigitChar);
    }
    if |s| == 0 {
      return Err(NoDigits);
    }
    FinalizeFits(t, negative, result);
    r := Finalize(t, negative, result);
  }

  method LeadingZeros(s: string) returns (k: nat)
    ensures k <= |s| && (forall j | 0 <= j < k :: s[j] == '0') && (k < |s| ==> s[k] != '0')
  {
    k := 0;
    while k < |s| && s[k] == '0'
      invariant k <= |s| && forall j | 0 <= j < k :: s[j] == '0'
    {
      k := k + 1;
    }
  }

  lemma AllZero(s: string)
    requires forall j | 0 <= j < |s| :: s[j] == '0'
    ensures AllDigits(s) && Value(s) == 0
  {
    ZerosVanish(s, |s|);
  }

  lemma DigitsAfterZeros(s: string, k: nat)
    requires k <= |s| && forall j | 0 <= j < k :: s[j] == '0'
    ensures AllDigits(s) <==> AllDigits(s[k..])
  {
    if AllDigits(s[k..]) {
      forall j | 0 <= j < |s| ensures IsDigit(s[j]) {
        assert j >= k ==> s[j] == s[k..][j - k];
      }
    }
  }

  lemma OutOfRange(t: Integral, negative: bool, magnitude: nat)
    requires Exists(t.bits) && magnitude >= Modulus(t.bits)
    ensures Fitted(t, negative, magnitude) == Err(Overflow(negative))
  {
  }

  // ------------------------------------------------------------ str_to_integral

  predicate IsSpace(c: char) {
    '\t' <= c <= '\r' || c == ' '
  }

  /** The source without its leading white space. */
  function Trimmed(src: string): string {
    if src != "" && IsSpace(src[0]) then Trimmed(src[1..]) else src
  }

  /** How many digits the text starts with. */
  function Run(s: string): (n: nat)
    ensures n <= |s| && AllDigits(s[..n]) && (n < |s| ==> !IsDigit(s[n]))
  {
    if s != "" && IsDigit(s[0]) then
      assert s[..1 + Run(s[1..])] == [s[0]] + s[1..][..Run(s[1..])];
      1 + Run(s[1..])
    else 0
  }

  /** White space, a sign if the type has one, digits: the number and what follows it. */
  function Parsed(t: Integral, src: string): (Result, string)
    requires Exists(t.bits)
  {
    var s := Trimmed(src);
    var u := Unsigned(t, s);
    if s == "" then (Err(EmptyInputString), src)
    else if t.signed && !IsDigit(s[0]) && !IsSign(t, s[0]) then (Err(InvalidLeadingChar), src)
    else if u == "" then (Err(NoDigits), src)
    else if !IsDigit(u[0]) then (Err(NonDigitChar), src)
    else
      var r := Fitted(t, Negative(t, s), Value(u[..Run(u)]));
      (r, if r.Ok? then u[Run(u)..] else src)
  }

  /** findFirstNonDigit. */
  method FindFirstNonDigit(s: string, from: nat) returns (m: nat)
    requires from <= |s| && AllDigits(s[..from])
    ensures from <= m <= |s| && m == Run(s)
  {
    m := from;
    while m < |s| && IsDigit(s[m])
      invariant from <= m <= |s| && AllDigits(s[..m])
    {
      m := m + 1;
    }
    RunIs(s, m);
  }

  lemma {:induction false} RunIs(s: string, m: nat)
    requires m <= |s| && AllDigits(s[..m]) && (m < |s| ==> !IsDigit(s[m]))
    ensures Run(s) == m
  {
    if m > 0 {
      assert s[..m][0] == s[0];
      assert s[1..][..m - 1] == s[..m][1..];
      RunIs(s[1..], m - 1);
    }
  }

  method SkipSpace(src: string) returns (b: nat)
    ensures b <= |src| && src[b..] == Trimmed(src)
  {
    b := 0;
    while b < |src| && IsSpace(src[b])
      invariant b <= |src| && Trimmed(src[b..]) == Trimmed(src)
    {
      b := b + 1;
    }
  }

  /** str_to_integral: `rest` is the piece once it has been advanced. */
  method StrToIntegral(t: Integral, src: string) returns (r: Result, rest: string)
    requires Exists(t.bits)
    ensures (r, rest) == Parsed(t, src)
  {
    hide Value, Modulus, Run, Trimmed;
    rest := src;
    var b := SkipSpace(src);
    var s := src[b..];
    if s == "" {
      return Err(EmptyInputString), src;
    }
    var negative := false;
    if t.signed && !IsDigit(s[0]) {
      if s[0] == '-' {
        negative := true;
      } else if s[0] != '+' {
        return Err(InvalidLeadingChar), src;
      }
      s := s[1..];
    }
    if t.signed && s == "" {
      return Err(NoDigits), src;
    }
    if !IsDigit(s[0]) {
      return Err(NonDigitChar), src;
    }
    var m := FindFirstNonDigit(s, 1);
    var raw := Integral(t.bits, false);
    var unsigned := DigitsTo(raw, s[..m], if m < |s| then s[m] else '\0');
    if unsigned.Err? {
      OutOfRange(t, negative, Value(s[..m]));
      return (if unsigned == Err(PositiveOverflow) then Err(Overflow(negative)) else unsigned), src;
    }
    FinalizeFits(t, negative, Value(s[..m]));
    r := Finalize(t, negative, unsigned.value);
    if r.Ok? {
      rest := s[m..];
    }
  }
}
