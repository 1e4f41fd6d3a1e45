/** Decimal TON amounts in the desktop example: printing nanograms and reading
    them back (examples/cpp-bindgen/main.cpp). */
module Amount {
  import opened Basics

  const DECIMALS: nat := 9
  const MAX_WHOLE_DIGITS: nat := 30

  predicate IsDigit(c: char) {
    '0' <= c <= '9'
  }

  predicate Digits(s: string) {
    forall i :: 0 <= i < |s| ==> IsDigit(s[i])
  }

  function Pow10(n: nat): (p: nat)
    ensures p > 0
  {
    if n == 0 then 1 else 10 * Pow10(n - 1)
  }

  /** The number a digit string denotes; the empty string denotes zero. */
  function Value(s: string): nat
    requires Digits(s)
  {
    if s == [] then 0 else Value(s[..|s| - 1]) * 10 + (s[|s| - 1] as int - '0' as int)
  }

  // ----- printing -----

  function StripLeading(s: string): string {
    if |s| > 1 && s[0] == '0' then StripLeading(s[1..]) else s
  }

  function PadLeading(s: string): (r: string)
    ensures |r| == if |s| <= DECIMALS then DECIMALS + 1 else |s|
    decreases DECIMALS + 1 - |s|
  {
    if |s| <= DECIMALS then PadLeading("0" + s) else s
  }

  function StripTrailing(s: string): (r: string)
    ensures |r| <= |s| && r == s[..|r|]
  {
    if s != [] && s[|s| - 1] == '0' then StripTrailing(s[..|s| - 1]) else s
  }

  /** `QString::left`: everything for a negative or too large count. */
  function Left(s: string, n: int): string {
    if 0 <= n <= |s| then s[..n] else s
  }

  /** Nine decimals, cut to at most `maximumDecimals` and without trailing zeros. */
  function Write(digits: string, maximumDecimals: int): string
    requires |digits| > DECIMALS
  {
    var whole := digits[..|digits| - DECIMALS];
    var fraction := StripTrailing(Left(digits[|digits| - DECIMALS..], maximumDecimals));
    if fraction == [] then whole else whole + "." + fraction
  }

  function Format(nanograms: string, maximumDecimals: int): string {
    Write(PadLeading(StripLeading(nanograms)), maximumDecimals)
  }

  method FormatTon(nanograms: string, maximumDecimals: int) returns (text: string)
    ensures text == Format(nanograms, maximumDecimals)
  {
    var stripped := WithoutLeadingZeros(nanograms);
    var digits := stripped;
    while |digits| <= DECIMALS
      invariant PadLeading(digits) == PadLeading(stripped)
      decreases DECIMALS + 1 - |digits|
    {
      digits := "0" + digits;
    }
    var whole := digits[..|digits| - DECIMALS];
    var fraction := WithoutTrailingZeros(Left(digits[|digits| - DECIMALS..], maximumDecimals));
    text := if fraction == [] then whole else whole + "." + fraction;
  }

  method WithoutLeadingZeros(s: string) returns (digits: string)
    ensures digits == StripLeading(s)
  {
    digits := s;
    while |digits| > 1 && digits[0] == '0'
      invariant StripLeading(digits) == StripLeading(s)
      decreases |digits|
    {
      digits := digits[1..];
    }
  }

  method WithoutTrailingZeros(s: string) returns (fraction: string)
    ensures fraction == StripTrailing(s)
  {
    fraction := s;
    while fraction != [] && fraction[|fraction| - 1] == '0'
      invariant StripTrailing(fraction) == StripTrailing(s)
      decreases |fraction|
    {
      fraction := fraction[..|fraction| - 1];
    }
  }

  // ----- reading -----

  datatype AmountError = NotAnAmount | BadCharacter | TooPrecise | TooLarge | NotPositive

  /** What the text library calls a digit and a space. */
  datatype Charset = Charset(digit: char -> bool, space: char -> bool)

  /** It knows the ten digits, and they are not spaces. */
  ghost predicate Usable(chars: Charset) {
    forall c :: IsDigit(c) ==> chars.digit(c) && !chars.space(c)
  }

  function TrimStart(s: string, chars: Charset): string {
    if s != [] && chars.space(s[0]) then TrimStart(s[1..], chars) else s
  }

  function TrimEnd(s: string, chars: Charset): string {
    if s != [] && chars.space(s[|s| - 1]) then TrimEnd(s[..|s| - 1], chars) else s
  }

  function CountDots(s: string): nat {
    if s == [] then 0 else CountDots(s[..|s| - 1]) + if s[|s| - 1] == '.' then 1 else 0
  }

  predicate AmountCharacters(s: string, chars: Charset) {
    forall i :: 0 <= i < |s| ==> chars.digit(s[i]) || s[i] == '.'
  }

  /** The position of the first point, or the length. */
  function DotAt(s: string): (i: nat)
    ensures i <= |s| && (i < |s| ==> s[i] == '.') && forall j :: 0 <= j < i ==> s[j] != '.'
  {
    if s == [] || s[0] == '.' then 0 else 1 + DotAt(s[1..])
  }

  function PadTrailing(s: string): (r: string)
    ensures |r| == if |s| <= DECIMALS then DECIMALS else |s|
    decreases DECIMALS - |s|
  {
    if |s| < DECIMALS then PadTrailing(s + "0") else s
  }

  function ParseParts(whole: string, fraction: string): Result<string, AmountError> {
    var units := if whole == [] then "0" else whole;
    if |fraction| > DECIMALS then Failure(TooPrecise)
    else if |units| > MAX_WHOLE_DIGITS then Failure(TooLarge)
    else
      var nanograms := StripLeading(units + PadTrailing(fraction));
      if nanograms == "0" then Failure(NotPositive) else Success(nanograms)
  }

  function Parse(input: string, chars: Charset): Result<string, AmountError> {
    var value := TrimEnd(TrimStart(input, chars), chars);
    if value == [] || CountDots(value) > 1 then Failure(NotAnAmount)
    else if !AmountCharacters(value, chars) then Failure(BadCharacter)
    else
      var dot := DotAt(value);
      ParseParts(value[..dot], if dot < |value| then value[dot + 1..] else [])
  }

  method ParseTonAmount(input: string, chars: Charset) returns (r: Result<string, AmountError>)
    ensures r == Parse(input, chars)
  {
    var value := TrimEnd(TrimStart(input, chars), chars);
    var dots := 0;
    for i := 0 to |value|
      invariant dots == CountDots(value[..i])
    {
      assert value[..i + 1][..i] == value[..i];
      if value[i] == '.' {
        dots := dots + 1;
      }
    }
    assert value[..|value|] == value;
    if value == [] || dots > 1 {
      return Failure(NotAnAmount);
    }
    for i := 0 to |value|
      invariant forall j :: 0 <= j < i ==> chars.digit(value[j]) || value[j] == '.'
    {
      if !chars.digit(value[i]) && value[i] != '.' {
        return Failure(BadCharacter);
      }
    }
    var dot := DotAt(value);
    var whole := value[..dot];
    var fraction := if dot < |value| then value[dot + 1..] else [];
    if whole == [] {
      whole := "0";
    }
    if |fraction| > DECIMALS {
      return Failure(TooPrecise);
    }
    if |whole| > MAX_WHOLE_DIGITS {
      return Failure(TooLarge);
    }
    ghost var given := fraction;
    while |fraction| < DECIMALS
      invariant |fraction| <= DECIMALS && PadTrailing(fraction) == PadTrailing(given)
      decreases DECIMALS - |fraction|
    {
      fraction := fraction + "0";
    }
    var nanograms := WithoutLeadingZeros(whole + fraction);
    if nanograms == "0" {
      return Failure(NotPositive);
    }
    r := Success(nanograms);
  }

  // ----- numbers -----

  lemma {:induction false} PowAdds(a: nat, b: nat)
    ensures Pow10(a + b) == Pow10(a) * Pow10(b)
  {
    if a > 0 {
      PowAdds(a - 1, b);
      TenTimes(Pow10(a - 1), Pow10(b));
    }
  }

  lemma TenTimes(x: nat, y: nat)
    ensures 10 * (x * y) == (10 * x) * y
  {
  }

  lemma {:induction false} ValueConcat(a: string, b: string)
    requires Digits(a) && Digits(b)
    ensures Digits(a + b) && Value(a + b) == Value(a) * Pow10(|b|) + Value(b)
  {
    if b == [] {
      assert a + b == a;
    } else {
      var front, last := b[..|b| - 1], b[|b| - 1] as int - '0' as int;
      ValueConcat(a, front);
      assert (a + b)[..|a + b| - 1] == a + front;
      NextDigit(Value(a), Pow10(|b| - 1), Value(front), last);
    }
  }

  lemma NextDigit(v: nat, p: nat, f: nat, digit: int)
    ensures (v * p + f) * 10 + digit == v * (10 * p) + (f * 10 + digit)
  {
  }

  lemma {:induction false} ValueBound(s: string)
    requires Digits(s)
    ensures Value(s) < Pow10(|s|)
  {
    if s != [] { ValueBound(s[..|s| - 1]); }
  }

  lemma ZeroFirst(s: string)
    requires Digits(s)
    ensures Digits("0" + s) && Value("0" + s) == Value(s)
  {
    ValueConcat("0", s);
    assert "0"[..0] == [];
    assert Value("0") == 0;
  }

  /** No leading zero, except for zero itself. */
  predicate Canonical(s: string) {
    s != [] && (|s| > 1 ==> s[0] != '0')
  }

  lemma {:induction false} StripLeadingKeeps(s: string)
    requires Digits(s)
    ensures Digits(StripLeading(s)) && Value(StripLeading(s)) == Value(s)
    ensures s != [] ==> Canonical(StripLeading(s))
    ensures |StripLeading(s)| <= |s|
  {
    if |s| > 1 && s[0] == '0' {
      StripLeadingKeeps(s[1..]);
      ZeroFirst(s[1..]);
      assert "0" + s[1..] == s;
    }
  }

  lemma {:induction false} PadLeadingKeeps(s: string)
    requires Digits(s)
    ensures Digits(PadLeading(s)) && Value(PadLeading(s)) == Value(s)
    decreases DECIMALS + 1 - |s|
  {
    if |s| <= DECIMALS {
      ZeroFirst(s);
      PadLeadingKeeps("0" + s);
    }
  }

  /** A canonical number with `n` or more digits is at least 10^(n-1). */
  lemma CanonicalSize(s: string)
    requires Digits(s) && Canonical(s) && |s| > 1
    ensures Value(s) >= Pow10(|s| - 1)
  {
    ValueConcat(s[..1], s[1..]);
    assert s[..1] + s[1..] == s;
    assert s[..1][..0] == [];
    assert Value(s[..1]) == s[0] as int - '0' as int >= 1;
    MulAtLeast(Value(s[..1]), Pow10(|s| - 1));
  }

  lemma MulAtLeast(v: nat, p: nat)
    requires v >= 1
    ensures v * p >= p
  {
  }

  // ----- fractions -----

  lemma ZeroLast(s: string)
    requires Digits(s)
    ensures Digits(s + "0") && Value(s + "0") == Value(s) * 10
  {
    assert (s + "0")[..|s|] == s;
  }

  lemma {:induction false} PadTrailingValue(s: string)
    requires Digits(s) && |s| <= DECIMALS
    ensures Digits(PadTrailing(s)) && Value(PadTrailing(s)) == Value(s) * Pow10(DECIMALS - |s|)
    decreases DECIMALS - |s|
  {
    if |s| < DECIMALS {
      ZeroLast(s);
      PadTrailingValue(s + "0");
      Tenfold(Value(s), Pow10(DECIMALS - |s| - 1));
    }
  }

  lemma Tenfold(v: nat, p: nat)
    ensures (v * 10) * p == v * (10 * p)
  {
  }

  lemma {:induction false} StripThenPad(s: string)
    requires |s| <= DECIMALS
    ensures PadTrailing(StripTrailing(s)) == PadTrailing(s)
  {
    if s != [] && s[|s| - 1] == '0' {
      var shorter := s[..|s| - 1];
      StripThenPad(shorter);
      assert shorter + "0" == s;
      assert PadTrailing(shorter) == PadTrailing(shorter + "0");
    }
  }

  /** A remainder below the divisor is the remainder. */
  lemma QuotientRemainder(q: nat, m: nat, r: nat)
    requires r < m
    ensures (q * m + r) % m == r
  {
    var n := q * m + r;
    var k := q - n / m;
    assert m * k == n % m - r by {
      assert n == m * (n / m) + n % m;
      assert m * k == m * q - m * (n / m);
    }
    NoMultipleBetween(m, k);
  }

  lemma NoMultipleBetween(m: int, k: int)
    requires m > 0 && 0 - m < m * k < m
    ensures k == 0
  {
    assert k >= 1 ==> m * k >= m;
    assert k <= -1 ==> m * k <= 0 - m;
  }

  /** Cutting a fraction after `e` digits rounds the amount down. */
  lemma CutRoundsDown(whole: string, fraction: string, e: nat)
    requires Digits(whole) && Digits(fraction) && e <= |fraction|
    ensures var n, m := Value(whole) * Pow10(|fraction|) + Value(fraction), Pow10(|fraction| - e);
            Digits(fraction[..e])
            && Value(whole) * Pow10(|fraction|) + Value(fraction[..e]) * m == n - n % m
  {
    var left, right := fraction[..e], fraction[e..];
    assert fraction == left + right;
    ValueConcat(left, right);
    ValueBound(right);
    PowAdds(e, |fraction| - e);
    RoundDown(Value(whole), Value(left), Value(right), Pow10(|fraction| - e), Pow10(e));
  }

  lemma RoundDown(w: nat, l: nat, r: nat, m: nat, k: nat)
    requires r < m
    ensures var n := w * (k * m) + (l * m + r); w * (k * m) + l * m == n - n % m
  {
    assert w * (k * m) == (w * k) * m;
    assert (w * k) * m + l * m == (w * k + l) * m;
    QuotientRemainder(w * k + l, m, r);
  }

  // ----- the round trip -----

  lemma {:induction false} DotsInDigits(s: string)
    requires Digits(s)
    ensures CountDots(s) == 0
  {
    if s != [] { DotsInDigits(s[..|s| - 1]); }
  }

  lemma {:induction false} DotsInConcat(a: string, b: string)
    ensures CountDots(a + b) == CountDots(a) + CountDots(b)
  {
    if b == [] {
      assert a + b == a;
    } else {
      DotsInConcat(a, b[..|b| - 1]);
      assert (a + b)[..|a + b| - 1] == a + b[..|b| - 1];
    }
  }

  lemma DotAfter(whole: string, text: string)
    requires Digits(whole) && whole <= text && (|text| > |whole| ==> text[|whole|] == '.')
    ensures DotAt(text) == |whole|
  {
    var i := DotAt(text);
    assert forall j :: 0 <= j < |whole| ==> text[j] == whole[j];
    assert i >= |whole|;
  }

  /** Text of digits, with or without a point, is read as its two parts. */
  lemma ParseWritten(whole: string, fraction: string, chars: Charset)
    requires Usable(chars) && Digits(whole) && Digits(fraction) && whole != []
    ensures Parse(if fraction == [] then whole else whole + "." + fraction, chars) == ParseParts(whole, fraction)
  {
    var text := if fraction == [] then whole else whole + "." + fraction;
    assert text[0] == whole[0] && IsDigit(text[|text| - 1]);
    assert TrimEnd(TrimStart(text, chars), chars) == text;
    assert CountDots(text) <= 1 by {
      DotsInDigits(whole);
      DotsInDigits(fraction);
      DotsInConcat(whole + ".", fraction);
      DotsInConcat(whole, ".");
      assert CountDots(".") == 1;
    }
    assert AmountCharacters(text, chars);
    DotAfter(whole, text);
    assert text[..|whole|] == whole;
    if fraction != [] {
      assert text[|whole| + 1..] == fraction;
    }
  }

  lemma CanonicalZero(s: string)
    requires Digits(s) && Canonical(s)
    ensures Value(s) == 0 <==> s == "0"
  {
    if |s| > 1 {
      CanonicalSize(s);
    } else {
      assert s[..0] == [] && s == [s[0]];
    }
  }

  /** How many of the nine decimals are shown. */
  function Shown(maximumDecimals: int): nat {
    if 0 <= maximumDecimals <= DECIMALS then maximumDecimals else DECIMALS
  }

  /** The amount with its last `places` digits replaced by zeros. */
  function RoundedDown(n: nat, places: nat): int {
    n - n % Pow10(places)
  }

  lemma WrittenValue(whole: string, fraction: string, e: nat)
    requires Digits(whole) && Digits(fraction) && |fraction| == DECIMALS && e <= DECIMALS && Digits(whole + fraction)
    ensures var text := whole + PadTrailing(StripTrailing(fraction[..e]));
            Digits(text) && Value(text) == RoundedDown(Value(whole + fraction), DECIMALS - e)
  {
    var cut := fraction[..e];
    CutRoundsDown(whole, fraction, e);
    StripThenPad(cut);
    PadTrailingValue(cut);
    ValueConcat(whole, PadTrailing(cut));
    ValueConcat(whole, fraction);
  }

  /** What reading gives: the rounded amount, or why it is refused. */
  ghost predicate Reads(r: Result<string, AmountError>, tooLarge: bool, rounded: int) {
    if tooLarge then r == Failure(TooLarge)
    else if rounded == 0 then r == Failure(NotPositive)
    else r.Success? && Digits(r.value) && Canonical(r.value) && Value(r.value) == rounded
  }

  lemma PartsRead(whole: string, fraction: string, e: nat)
    requires Digits(whole) && Digits(fraction) && whole != [] && |fraction| == DECIMALS && e <= DECIMALS
    requires Digits(whole + fraction)
    ensures Reads(ParseParts(whole, StripTrailing(fraction[..e])), |whole| > MAX_WHOLE_DIGITS,
                  RoundedDown(Value(whole + fraction), DECIMALS - e))
  {
    var kept := StripTrailing(fraction[..e]);
    WrittenValue(whole, fraction, e);
    var text := whole + PadTrailing(kept);
    StripLeadingKeeps(text);
    CanonicalZero(StripLeading(text));
  }

  /** Printing an amount with `d` decimals and reading the text back gives the
      amount rounded down to those decimals, as the shortest digit string; an
      amount whose whole part has more than thirty digits is refused as too large,
      and one that rounds to zero as not positive. */
  lemma AmountRoundTrip(s: string, d: int, chars: Charset)
    requires Digits(s) && Usable(chars)
    ensures Reads(Parse(Format(s, d), chars), |StripLeading(s)| > MAX_WHOLE_DIGITS + DECIMALS,
                  RoundedDown(Value(s), DECIMALS - Shown(d)))
  {
    StripLeadingKeeps(s);
    PadLeadingKeeps(StripLeading(s));
    WriteReads(PadLeading(StripLeading(s)), d, chars);
  }

  lemma WriteReads(digits: string, d: int, chars: Charset)
    requires Usable(chars) && Digits(digits) && |digits| > DECIMALS
    ensures Reads(Parse(Write(digits, d), chars), |digits| > MAX_WHOLE_DIGITS + DECIMALS,
                  RoundedDown(Value(digits), DECIMALS - Shown(d)))
  {
    var whole, fraction := digits[..|digits| - DECIMALS], digits[|digits| - DECIMALS..];
    assert whole + fraction == digits;
    FormatReads(whole, fraction, d, chars);
    PartsRead(whole, fraction, Shown(d));
  }

  lemma FormatReads(whole: string, fraction: string, d: int, chars: Charset)
    requires Usable(chars) && Digits(whole) && Digits(fraction) && whole != [] && |fraction| == DECIMALS
    ensures var kept := StripTrailing(Left(fraction, d));
            Parse(if kept == [] then whole else whole + "." + kept, chars) == ParseParts(whole, StripTrailing(fraction[..Shown(d)]))
  {
    assert Left(fraction, d) == fraction[..Shown(d)];
    ParseWritten(whole, StripTrailing(fraction[..Shown(d)]), chars);
  }

  lemma {:induction false} PowGrows(a: nat, b: nat)
    requires a <= b
    ensures Pow10(a) <= Pow10(b)
  {
    if a < b { PowGrows(a, b - 1); }
  }

  /** The size limit in numbers: too large means 10 to the 39th or more. */
  lemma TooLargeIff(s: string, limit: nat)
    requires Digits(s) && s != [] && limit > 0
    ensures |StripLeading(s)| > limit <==> Value(s) >= Pow10(limit)
  {
    var t := StripLeading(s);
    StripLeadingKeeps(s);
    ValueBound(t);
    if |t| > limit {
      CanonicalSize(t);
      PowGrows(limit, |t| - 1);
    } else {
      PowGrows(|t|, limit);
    }
  }
}
