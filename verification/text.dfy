/**
 * The text handling the app relies on: Foundation's whitespace trimming,
 * the decimal-number text fields (commas accepted as decimal points) and the
 * "%.0f" / "%.1f" renderings of numbers.
 */
module Text {
  import opened Optional

  // ---------------------------------------------------------------------
  // Character classes.

  /** CharacterSet.whitespaces: general category Zs plus horizontal tab. */
  predicate IsWhitespace(c: char) {
    c == '\t' || c == ' ' || c == '\U{00A0}' || c == '\U{1680}'
    || ('\U{2000}' <= c <= '\U{200A}')
    || c == '\U{202F}' || c == '\U{205F}' || c == '\U{3000}'
  }

  /** CharacterSet.newlines: U+000A-U+000D, U+0085, U+2028, U+2029. */
  predicate IsNewline(c: char) {
    ('\n' <= c <= '\r') || c == '\U{0085}' || c == '\U{2028}' || c == '\U{2029}'
  }

  /**
   * The character set a trim removes: `.whitespaces` when `newlines` is
   * false, `.whitespacesAndNewlines` when it is true.
   */
  predicate IsBlank(c: char, newlines: bool) {
    IsWhitespace(c) || (newlines && IsNewline(c))
  }

  predicate AllBlank(s: string, newlines: bool) {
    forall k :: 0 <= k < |s| ==> IsBlank(s[k], newlines)
  }

  // ---------------------------------------------------------------------
  // Trimming.

  /** The length of the run of characters of the set that `s` starts with. */
  function LeadingBlanks(s: string, newlines: bool): (n: nat)
    ensures n <= |s|
    ensures forall k :: 0 <= k < n ==> IsBlank(s[k], newlines)
    ensures n < |s| ==> !IsBlank(s[n], newlines)
  {
    if |s| == 0 || !IsBlank(s[0], newlines) then 0
    else 1 + LeadingBlanks(s[1..], newlines)
  }

  /** The length of the run of characters of the set that `s` ends with. */
  function TrailingBlanks(s: string, newlines: bool): (n: nat)
    ensures n <= |s|
    ensures forall k :: |s| - n <= k < |s| ==> IsBlank(s[k], newlines)
    ensures n < |s| ==> !IsBlank(s[|s| - n - 1], newlines)
  {
    if |s| == 0 || !IsBlank(s[|s| - 1], newlines) then 0
    else
      var init := s[..|s| - 1];
      assert forall k :: 0 <= k < |init| ==> init[k] == s[k];
      1 + TrailingBlanks(init, newlines)
  }

  /**
   * `trimmingCharacters(in:)`: drops the leading and the trailing run of
   * characters of the set and keeps everything between, unchanged.
   */
  function Trim(s: string, newlines: bool): (r: string)
    ensures |r| <= |s|
    ensures |r| == 0 <==> AllBlank(s, newlines)
  {
    var a := LeadingBlanks(s, newlines);
    var b := TrailingBlanks(s[a..], newlines);
    TrimEmptyIffBlank(s, newlines, a, b);
    s[a..|s| - b]
  }

  lemma TrimEmptyIffBlank(s: string, newlines: bool, a: nat, b: nat)
    requires a == LeadingBlanks(s, newlines) && b == TrailingBlanks(s[a..], newlines)
    ensures a + b == |s| <==> AllBlank(s, newlines)
  {
    if a + b == |s| {
      RunsCoverAll(s, a, b, newlines);
    } else {
      assert !IsBlank(s[a], newlines);
    }
  }

  /** A leading run and a trailing run that meet cover the whole string. */
  lemma RunsCoverAll(s: string, a: nat, b: nat, newlines: bool)
    requires a + b == |s|
    requires forall k :: 0 <= k < a ==> IsBlank(s[k], newlines)
    requires forall k :: |s[a..]| - b <= k < |s[a..]| ==> IsBlank(s[a..][k], newlines)
    ensures AllBlank(s, newlines)
  {
    forall k | a <= k < |s| ensures IsBlank(s[k], newlines) {
      assert s[k] == s[a..][k - a];
    }
  }

  /**
   * The trimmed text is `s` with its leading run (`a` characters) and its
   * trailing run (`b` characters) cut off, and every character cut off is
   * from the set.
   */
  lemma TrimKeepsMiddle(s: string, newlines: bool, a: nat, b: nat)
    requires a == LeadingBlanks(s, newlines) && b == TrailingBlanks(s[a..], newlines)
    ensures a + b <= |s| && Trim(s, newlines) == s[a..|s| - b]
    ensures forall k :: 0 <= k < a ==> IsBlank(s[k], newlines)
    ensures forall k :: |s| - b <= k < |s| ==> IsBlank(s[k], newlines)
  {
    TrimIsSlice(s, newlines, a, b);
    LeadingRunIsBlank(s, newlines, a);
    TrailingRunIsBlank(s, newlines, a, b);
  }

  lemma TrimIsSlice(s: string, newlines: bool, a: nat, b: nat)
    requires a == LeadingBlanks(s, newlines) && b == TrailingBlanks(s[a..], newlines)
    ensures a + b <= |s| && Trim(s, newlines) == s[a..|s| - b]
  {
  }

  lemma LeadingRunIsBlank(s: string, newlines: bool, a: nat)
    requires a == LeadingBlanks(s, newlines)
    ensures forall k :: 0 <= k < a ==> IsBlank(s[k], newlines)
  {
  }

  lemma TrailingRunIsBlank(s: string, newlines: bool, a: nat, b: nat)
    requires a == LeadingBlanks(s, newlines) && b == TrailingBlanks(s[a..], newlines)
    ensures forall k :: |s| - b <= k < |s| ==> IsBlank(s[k], newlines)
  {
    forall k | |s| - b <= k < |s| ensures IsBlank(s[k], newlines) {
      assert s[k] == s[a..][k - a];
    }
  }

  /** A trimmed string neither starts nor ends with a character of the set. */
  lemma TrimmedEnds(s: string, newlines: bool)
    ensures var r := Trim(s, newlines);
              |r| > 0 ==> !IsBlank(r[0], newlines) && !IsBlank(r[|r| - 1], newlines)
  {
    var r := Trim(s, newlines);
    var a := LeadingBlanks(s, newlines);
    var rest := s[a..];
    var b := TrailingBlanks(rest, newlines);
    if |r| > 0 {
      assert r[0] == s[a];
      assert r[|r| - 1] == rest[|rest| - b - 1];
    }
  }

  lemma TrimIsIdempotent(s: string, newlines: bool)
    ensures Trim(Trim(s, newlines), newlines) == Trim(s, newlines)
  {
    var t := Trim(s, newlines);
    TrimmedEnds(s, newlines);
    if |t| > 0 {
      assert LeadingBlanks(t, newlines) == 0;
      assert t[0..] == t;
      assert TrailingBlanks(t, newlines) == 0;
    }
  }

  /** `replacingOccurrences(of: ",", with: ".")`. */
  function CommasToDots(s: string): (r: string)
    ensures |r| == |s|
    ensures forall k :: 0 <= k < |s| ==> r[k] == (if s[k] == ',' then '.' else s[k])
  {
    if |s| == 0 then ""
    else [if s[0] == ',' then '.' else s[0]] + CommasToDots(s[1..])
  }

  /** What the numeric text fields do before parsing. */
  function NormalizeNumber(s: string): string {
    Trim(CommasToDots(s), true)
  }

  /** Trimming a string without characters of the set changes nothing. */
  lemma TrimWithoutBlanks(s: string, newlines: bool)
    requires forall k :: 0 <= k < |s| ==> !IsBlank(s[k], newlines)
    ensures Trim(s, newlines) == s
  {
    if |s| > 0 {
      assert LeadingBlanks(s, newlines) == 0;
      assert s[0..] == s;
      assert TrailingBlanks(s, newlines) == 0;
      assert s[..|s|] == s;
    }
  }

  // ---------------------------------------------------------------------
  // Decimal numerals.

  predicate IsDigit(c: char) {
    '0' <= c <= '9'
  }

  predicate AllDigits(s: string) {
    forall k :: 0 <= k < |s| ==> IsDigit(s[k])
  }

  function DigitValue(c: char): nat
    requires IsDigit(c)
  {
    (c as int) - ('0' as int)
  }

  function DigitChar(d: nat): (c: char)
    requires d < 10
    ensures IsDigit(c) && DigitValue(c) == d
  {
    ['0', '1', '2', '3', '4', '5', '6', '7', '8', '9'][d]
  }

  /** The number a string of decimal digits denotes ("" denotes 0). */
  function DigitsValue(ds: string): nat
    requires AllDigits(ds)
  {
    if |ds| == 0 then 0
    else 10 * DigitsValue(ds[..|ds| - 1]) + DigitValue(ds[|ds| - 1])
  }

  /** Position of the first '.', or |s| when there is none. */
  function DotIndex(s: string): (i: nat)
    ensures i <= |s|
  {
    if |s| == 0 || s[0] == '.' then 0 else 1 + DotIndex(s[1..])
  }

  /** The value of the digits after a decimal point: ".25" is 0.25. */
  function FractionValue(frac: string): (v: real)
    requires AllDigits(frac)
    ensures 0.0 <= v <= 1.0
    ensures |frac| == 1 ==> v == DigitValue(frac[0]) as real / 10.0
  {
    if |frac| == 0 then 0.0
    else (DigitValue(frac[0]) as real + FractionValue(frac[1..])) / 10.0
  }

  /** Digits with at most one decimal point and at least one digit. */
  function ParseUnsigned(s: string): (r: Option<real>) {
    var i := DotIndex(s);
    var whole := s[..i];
    var frac := if i < |s| then s[i + 1..] else "";
    if AllDigits(whole) && AllDigits(frac) && |whole| + |frac| > 0 then
      Some(DigitsValue(whole) as real + FractionValue(frac))
    else None
  }

  /**
   * `Double(text)` for plain decimal numerals: an optional sign, digits, and
   * at most one decimal point.  Anything else does not parse.
   */
  function ParseDecimal(s: string): (r: Option<real>) {
    if |s| > 0 && s[0] == '-' then
      match ParseUnsigned(s[1..])
      case Some(v) => Some(-v)
      case None => None
    else if |s| > 0 && s[0] == '+' then ParseUnsigned(s[1..])
    else ParseUnsigned(s)
  }

  /** What `ParseUnsigned` accepts starts with a digit or the point, and is not negative. */
  lemma ParseUnsignedShape(s: string)
    ensures var r := ParseUnsigned(s);
              r.Some? ==> r.value >= 0.0 && 0 < |s| && (IsDigit(s[0]) || s[0] == '.')
  {
    var i := DotIndex(s);
    if ParseUnsigned(s).Some? && i > 0 {
      assert IsDigit(s[..i][0]);
    }
  }

  /**
   * What `ParseDecimal` accepts is non-empty and starts with a sign, a digit
   * or the point; only a leading minus gives a negative value; and text that
   * starts with a blank is rejected.
   */
  lemma ParseDecimalShape(s: string)
    ensures var r := ParseDecimal(s);
              && (r.Some? ==> 0 < |s| && (IsDigit(s[0]) || s[0] == '.' || s[0] == '-' || s[0] == '+'))
              && (r.Some? && r.value < 0.0 ==> s[0] == '-')
              && (|s| > 0 && IsBlank(s[0], true) ==> r.None?)
  {
    ParseUnsignedShape(s);
    if |s| > 0 {
      ParseUnsignedShape(s[1..]);
    }
  }

  // ---------------------------------------------------------------------
  // Rendering.

  /** The decimal digits of `n`, most significant first, without leading zeros. */
  function ShowNat(n: nat): string {
    if n < 10 then [DigitChar(n)]
    else ShowNat(n / 10) + [DigitChar(n % 10)]
  }

  /** `ShowNat` writes digits, at least one, and they denote `n`. */
  lemma {:induction false} ShowNatDigits(n: nat)
    ensures |ShowNat(n)| > 0 && AllDigits(ShowNat(n))
    ensures DigitsValue(ShowNat(n)) == n
  {
    if n >= 10 {
      var prefix := ShowNat(n / 10);
      ShowNatDigits(n / 10);
      var r := ShowNat(n);
      assert r == prefix + [DigitChar(n % 10)];
      assert r[..|r| - 1] == prefix;
    }
  }

  function Abs(x: real): (r: real)
    ensures r >= 0.0 && (r == x || r == -x)
  {
    if x < 0.0 then -x else x
  }

  /** Round to the nearest integer, ties to even, as printf does. */
  function RoundHalfEven(x: real): (r: int)
    ensures x - 0.5 <= r as real <= x + 0.5
    ensures r as real - x == 0.5 || x - r as real == 0.5 ==> r % 2 == 0
    ensures x >= 0.0 ==> r >= 0
  {
    var f := x.Floor;
    var d := x - f as real;
    if d < 0.5 then f
    else if d > 0.5 then f + 1
    else if f % 2 == 0 then f
    else f + 1
  }

  function Sign(x: real): string {
    if x < 0.0 then "-" else ""
  }

  /** String(format: "%.0f", x). */
  function FormatWhole(x: real): string {
    Sign(x) + ShowNat(RoundHalfEven(Abs(x)))
  }

  /** The digits of n / 10 with one decimal: 1234 gives "123.4". */
  function TenthsDigits(n: nat): string {
    ShowNat(n / 10) + "." + [DigitChar(n % 10)]
  }

  /** |x| in tenths, rounded half to even. */
  function Tenths(x: real): nat {
    RoundHalfEven(Abs(x) * 10.0)
  }

  /** String(format: "%.1f", x). */
  function FormatOneDecimal(x: real): string {
    Sign(x) + TenthsDigits(Tenths(x))
  }

  /** The value a "%.0f" rendering stands for. */
  function RoundedToWhole(x: real): real {
    var m := RoundHalfEven(Abs(x)) as real;
    if x < 0.0 then -m else m
  }

  /** The value a "%.1f" rendering stands for. */
  function RoundedToTenths(x: real): real {
    var m := Tenths(x) as real / 10.0;
    if x < 0.0 then -m else m
  }

  /** Characters a rendered number is made of: digits, the point and the minus sign. */
  predicate NumeralChars(s: string) {
    forall k :: 0 <= k < |s| ==> IsDigit(s[k]) || s[k] == '.' || s[k] == '-'
  }

  /** Text made of numeral characters passes the field normalisation unchanged. */
  lemma NormalizeNumeral(s: string)
    requires NumeralChars(s)
    ensures NormalizeNumber(s) == s
  {
    assert CommasToDots(s) == s;
    TrimWithoutBlanks(s, true);
  }

  /** A sign followed by numeral text is numeral text. */
  lemma SignedNumeral(sign: string, body: string)
    requires sign == "" || sign == "-"
    requires NumeralChars(body) && |body| > 0
    ensures NumeralChars(sign + body) && |sign + body| > 0
  {
  }

  /** Digits after an optional minus sign contain no decimal point. */
  lemma SignedDigitsHaveNoPoint(sign: string, digits: string)
    requires sign == "" || sign == "-"
    requires AllDigits(digits)
    ensures '.' !in sign + digits
  {
    forall k | 0 <= k < |sign + digits| ensures (sign + digits)[k] != '.' {
      if k >= |sign| {
        assert (sign + digits)[k] == digits[k - |sign|];
      }
    }
  }

  /** The "%.1f" layout: a point follows the whole digits. */
  lemma TenthsLayoutIsNumeral(w: string, c: char)
    requires AllDigits(w) && IsDigit(c)
    ensures NumeralChars(w + "." + [c]) && '.' in w + "." + [c]
  {
    assert (w + "." + [c])[|w|] == '.';
  }

  lemma FormatWholeIsNumeral(x: real)
    ensures NumeralChars(FormatWhole(x)) && |FormatWhole(x)| > 0
    ensures '.' !in FormatWhole(x)
  {
    var digits := ShowNat(RoundHalfEven(Abs(x)));
    ShowNatDigits(RoundHalfEven(Abs(x)));
    SignedNumeral(Sign(x), digits);
    SignedDigitsHaveNoPoint(Sign(x), digits);
  }

  lemma FormatOneDecimalIsNumeral(x: real)
    ensures NumeralChars(FormatOneDecimal(x)) && |FormatOneDecimal(x)| > 0
    ensures '.' in FormatOneDecimal(x)
  {
    var n := Tenths(x);
    ShowNatDigits(n / 10);
    TenthsLayoutIsNumeral(ShowNat(n / 10), DigitChar(n % 10));
    SignedNumeral(Sign(x), TenthsDigits(n));
    assert (Sign(x) + TenthsDigits(n))[|Sign(x)| + |ShowNat(n / 10)|] == '.';
  }

  lemma {:induction false} NoDotInDigits(ds: string)
    requires AllDigits(ds)
    ensures DotIndex(ds) == |ds|
  {
    if |ds| > 0 {
      assert IsDigit(ds[0]);
      NoDotInDigits(ds[1..]);
    }
  }

  lemma ParseDigits(ds: string)
    requires |ds| > 0 && AllDigits(ds)
    ensures ParseUnsigned(ds) == Some(DigitsValue(ds) as real)
  {
    NoDotInDigits(ds);
    assert ds[..|ds|] == ds;
  }

  lemma ParseSigned(x: real, body: string, v: real)
    requires |body| > 0 && IsDigit(body[0])
    requires ParseUnsigned(body) == Some(v)
    ensures ParseDecimal(Sign(x) + body) == Some(if x < 0.0 then -v else v)
  {
    if x < 0.0 {
      assert (Sign(x) + body)[0] == '-';
      assert (Sign(x) + body)[1..] == body;
    } else {
      assert Sign(x) + body == body;
    }
  }

  /** Reading back a "%.0f" rendering gives the rounded value. */
  lemma ParseFormatWhole(x: real)
    ensures ParseDecimal(FormatWhole(x)) == Some(RoundedToWhole(x))
  {
    var digits := ShowNat(RoundHalfEven(Abs(x)));
    ShowNatDigits(RoundHalfEven(Abs(x)));
    ParseDigits(digits);
    ParseSigned(x, digits, DigitsValue(digits) as real);
  }

  lemma {:induction false} DotAfterDigits(w: string, rest: string)
    requires AllDigits(w)
    ensures DotIndex(w + rest) == |w| + DotIndex(rest)
  {
    if |w| > 0 {
      assert IsDigit(w[0]);
      assert (w + rest)[1..] == w[1..] + rest;
      DotAfterDigits(w[1..], rest);
    } else {
      assert w + rest == rest;
    }
  }

  lemma UnfoldParse(s: string, w: string, c: char)
    requires DotIndex(s) == |w| && |w| < |s| && s[..|w|] == w && s[|w| + 1..] == [c]
    requires AllDigits(w) && IsDigit(c) && |w| > 0
    ensures ParseUnsigned(s) == Some(DigitsValue(w) as real + DigitValue(c) as real / 10.0)
  {
    assert AllDigits([c]);
    assert FractionValue([c]) == DigitValue(c) as real / 10.0;
  }

  lemma TenthsLayout(w: string, c: char)
    requires AllDigits(w)
    ensures var body := w + "." + [c];
              DotIndex(body) == |w| && body[..|w|] == w && body[|w| + 1..] == [c]
  {
    var body := w + "." + [c];
    DotAfterDigits(w, "." + [c]);
    assert body == w + ("." + [c]);
    assert ("." + [c])[0] == '.';
    assert body[..|w|] == w;
    assert body[|w| + 1..] == [c];
  }

  lemma ParseWithTenths(w: string, c: char)
    requires |w| > 0 && AllDigits(w) && IsDigit(c)
    ensures ParseUnsigned(w + "." + [c])
            == Some(DigitsValue(w) as real + DigitValue(c) as real / 10.0)
  {
    TenthsLayout(w, c);
    UnfoldParse(w + "." + [c], w, c);
  }

  lemma TenthsSplit(n: nat)
    ensures (n / 10) as real + (n % 10) as real / 10.0 == n as real / 10.0
  {
    assert n == 10 * (n / 10) + n % 10;
  }

  lemma ParseTenthsDigits(n: nat)
    ensures |TenthsDigits(n)| > 0 && IsDigit(TenthsDigits(n)[0])
    ensures ParseUnsigned(TenthsDigits(n)) == Some(n as real / 10.0)
  {
    ShowNatDigits(n / 10);
    ParseWithTenths(ShowNat(n / 10), DigitChar(n % 10));
    TenthsSplit(n);
  }

  lemma ParseSignedTenths(x: real, n: nat)
    ensures var v := n as real / 10.0;
              ParseDecimal(Sign(x) + TenthsDigits(n)) == Some(if x < 0.0 then -v else v)
  {
    ParseTenthsDigits(n);
    ParseSigned(x, TenthsDigits(n), n as real / 10.0);
  }

  /** Reading back a "%.1f" rendering gives the value rounded to tenths. */
  lemma ParseFormatOneDecimal(x: real)
    ensures ParseDecimal(FormatOneDecimal(x)) == Some(RoundedToTenths(x))
  {
    var n := Tenths(x);
    var v := n as real / 10.0;
    ParseSignedTenths(x, n);
    assert FormatOneDecimal(x) == Sign(x) + TenthsDigits(n);
    assert RoundedToTenths(x) == if x < 0.0 then -v else v;
  }

  lemma RoundWholeNumber(k: int)
    ensures RoundHalfEven(k as real) == k
  {
    assert (k as real).Floor == k;
  }

  /** A whole number renders exactly under "%.0f". */
  lemma RoundedWhole(k: int)
    ensures RoundedToWhole(k as real) == k as real
  {
    if k < 0 {
      assert Abs(k as real) == (-k) as real;
      RoundWholeNumber(-k);
    } else {
      RoundWholeNumber(k);
    }
  }

  /** A number with at most one decimal renders exactly under "%.1f". */
  lemma RoundedTenths(k: int)
    ensures RoundedToTenths(k as real / 10.0) == k as real / 10.0
  {
    var x := k as real / 10.0;
    if k < 0 {
      assert Abs(x) * 10.0 == (-k) as real;
      RoundWholeNumber(-k);
    } else {
      assert Abs(x) * 10.0 == k as real;
      RoundWholeNumber(k);
    }
  }
}
