/**
 * PHP's `is_numeric`, which decides whether a border width or radius is a
 * legacy unit-less number that needs a "px" suffix.
 */
module PhpNumeric {
  import opened Php

  /** The whitespace PHP accepts around a numeric string: space, tab, LF, CR, VT and FF. */
  predicate IsWhitespace(c: char) {
    c == ' ' || c == '\t' || c == '\n' || c == '\r' || c as int == 11 || c as int == 12
  }

  predicate IsLetter(c: char) {
    ('a' <= c <= 'z') || ('A' <= c <= 'Z')
  }

  /** The first index at or after `i` that does not hold whitespace (or `|s|`). */
  function SkipWhitespace(s: string, i: nat): (j: nat)
    requires i <= |s|
    ensures i <= j <= |s|
    ensures forall k :: i <= k < j ==> IsWhitespace(s[k])
    ensures j < |s| ==> !IsWhitespace(s[j])
    decreases |s| - i
  {
    if i < |s| && IsWhitespace(s[i]) then SkipWhitespace(s, i + 1) else i
  }

  /** The first index at or after `i` that does not hold a decimal digit (or `|s|`). */
  function SkipDigits(s: string, i: nat): (j: nat)
    requires i <= |s|
    ensures i <= j <= |s|
    ensures forall k :: i <= k < j ==> IsDigit(s[k])
    ensures j < |s| ==> !IsDigit(s[j])
    decreases |s| - i
  {
    if i < |s| && IsDigit(s[i]) then SkipDigits(s, i + 1) else i
  }

  /**
   * The end of an exponent `[eE][+-]?[0-9]+` that starts at `i`, or `i`
   * itself when no complete exponent starts there.
   */
  function ExponentEnd(s: string, i: nat): (j: nat)
    requires i <= |s|
    ensures i <= j <= |s|
    ensures j > i ==> IsDigit(s[j - 1])
  {
    if i < |s| && (s[i] == 'e' || s[i] == 'E') then
      var digits := if i + 1 < |s| && (s[i + 1] == '+' || s[i + 1] == '-') then i + 2 else i + 1;
      var end := SkipDigits(s, digits);
      if end > digits then end else i
    else i
  }

  /**
   * Where the parts of a candidate numeric string end: leading whitespace
   * ends at `mantissa` (or one later, past a sign), the integer digits at
   * `intEnd`, the optional '.' and fraction digits at `fracEnd`, the
   * optional exponent at `expEnd` and trailing whitespace at `end`.
   */
  datatype NumberScan = NumberScan(mantissa: nat, intEnd: nat, fracEnd: nat, expEnd: nat, end: nat)
  {
    /** How many mantissa digits were seen, before and after the point. */
    function Digits(): nat
      requires mantissa <= intEnd <= fracEnd
    {
      (intEnd - mantissa) + (if fracEnd > intEnd then fracEnd - intEnd - 1 else 0)
    }
  }

  function ScanNumber(s: string): (r: NumberScan)
    ensures r.mantissa <= r.intEnd <= r.fracEnd <= r.expEnd <= r.end <= |s|
    ensures r.intEnd > r.mantissa ==> IsDigit(s[r.intEnd - 1])
    ensures r.fracEnd > r.intEnd ==> s[r.intEnd] == '.'
    ensures r.fracEnd > r.intEnd + 1 ==> IsDigit(s[r.fracEnd - 1])
    ensures r.expEnd > r.fracEnd ==> IsDigit(s[r.expEnd - 1])
    ensures r.end > r.expEnd ==> IsWhitespace(s[r.end - 1])
  {
    var lead := SkipWhitespace(s, 0);
    var mantissa := if lead < |s| && (s[lead] == '+' || s[lead] == '-') then lead + 1 else lead;
    var intEnd := SkipDigits(s, mantissa);
    var fracEnd := if intEnd < |s| && s[intEnd] == '.' then SkipDigits(s, intEnd + 1) else intEnd;
    var expEnd := ExponentEnd(s, fracEnd);
    NumberScan(mantissa, intEnd, fracEnd, expEnd, SkipWhitespace(s, expEnd))
  }

  /**
   * `is_numeric` on a string (PHP 8): optional leading whitespace, an optional
   * sign, a decimal mantissa with at least one digit (`12`, `1.5`, `.5`, `1.`),
   * an optional exponent, optional trailing whitespace, and nothing else.
   * Hexadecimal, "INF" and "NAN" are not numeric.
   */
  predicate IsNumericString(s: string) {
    var r := ScanNumber(s);
    r.Digits() > 0 && r.end == |s|
  }

  /**
   * `is_numeric` on a value: integers always, strings by the grammar above,
   * nothing else. The text of a numeric value is itself a numeric string,
   * and a string ending in a unit is never numeric.
   */
  predicate IsNumeric(v: Value)
    ensures v.Int? ==> IsNumeric(v)
    ensures IsNumeric(v) ==> (v.Int? || v.Str?) && IsNumericString(ToPhpString(v))
    ensures v.Str? && EndsWithUnit(v.s) ==> !IsNumeric(v)
  {
    match v
    case Int(i) => IntToStringIsNumeric(i); true
    case Str(s) =>
      if EndsWithUnit(s) then UnitSuffixNotNumeric(s); IsNumericString(s) else IsNumericString(s)
    case _ => false
  }

  /** A numeric string ends in a digit, a decimal point or whitespace. */
  lemma NumericStringEnding(s: string)
    requires IsNumericString(s)
    ensures |s| > 0
    ensures var c := s[|s| - 1]; IsDigit(c) || c == '.' || IsWhitespace(c)
  {
    var r := ScanNumber(s);
    if r.end > r.expEnd {
    } else if r.expEnd > r.fracEnd {
    } else if r.fracEnd > r.intEnd + 1 {
    } else if r.fracEnd == r.intEnd + 1 {
    } else {
      assert r.intEnd > r.mantissa;
    }
  }

  /** A value that already ends in a unit ("10px", "2em", "10%") is never numeric. */
  predicate EndsWithUnit(s: string) {
    |s| > 0 && (IsLetter(s[|s| - 1]) || s[|s| - 1] == '%')
  }

  lemma UnitSuffixNotNumeric(s: string)
    requires EndsWithUnit(s)
    ensures !IsNumericString(s)
  {
    if IsNumericString(s) {
      NumericStringEnding(s);
    }
  }

  /** The text PHP gives any integer is itself a numeric string. */
  lemma IntToStringIsNumeric(i: int)
    ensures IsNumericString(IntToString(i))
  {
    var s := IntToString(i);
    var start := if i < 0 then 1 else 0;
    assert forall k :: start <= k < |s| ==> IsDigit(s[k]);
    assert |s| > start;
    assert SkipWhitespace(s, 0) == 0;
    assert SkipDigits(s, start) == |s|;
    assert ExponentEnd(s, |s|) == |s|;
    assert SkipWhitespace(s, |s|) == |s|;
  }

  /** Plain integers, signed decimals with an exponent, and numbers in whitespace are numeric. */
  lemma IntegerStringIsNumeric()
    ensures IsNumericString("10")
  {
    assert SkipDigits("10", 0) == 2;
    assert ScanNumber("10") == NumberScan(0, 2, 2, 2, 2);
  }

  lemma ExponentStringIsNumeric()
    ensures IsNumericString("-1.5e3")
  {
    assert SkipWhitespace("-1.5e3", 0) == 0;
    assert SkipDigits("-1.5e3", 1) == 2;
    assert SkipDigits("-1.5e3", 3) == 4;
    assert SkipDigits("-1.5e3", 5) == 6;
    assert ExponentEnd("-1.5e3", 4) == 6;
    assert ScanNumber("-1.5e3") == NumberScan(1, 2, 4, 6, 6);
  }

  lemma PaddedFractionIsNumeric()
    ensures IsNumericString(" .5 ")
  {
    assert SkipWhitespace(" .5 ", 0) == 1;
    assert SkipDigits(" .5 ", 1) == 1;
    assert SkipDigits(" .5 ", 2) == 3;
    assert SkipWhitespace(" .5 ", 3) == 4;
    assert ScanNumber(" .5 ") == NumberScan(1, 1, 3, 3, 4);
  }

  /** Values carrying a unit, the empty string, a bare point and a dangling exponent are not. */
  lemma NonNumericExamples()
    ensures !IsNumericString("10px") && !IsNumericString("2em") && !IsNumericString("10%")
    ensures !IsNumericString("") && !IsNumericString(".") && !IsNumericString("1e")
  {
    UnitSuffixNotNumeric("10px");
    UnitSuffixNotNumeric("2em");
    UnitSuffixNotNumeric("10%");
    UnitSuffixNotNumeric("1e");
    assert ScanNumber("").Digits() == 0;
    assert SkipDigits(".", 1) == 1;
    assert ScanNumber(".").Digits() == 0;
  }
}
