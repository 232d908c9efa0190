/**
  Base-10 rendering of a signed integer, as Rust's `i32::to_string` produces it,
  and the parse back, as `str::parse::<i32>` accepts it.
 */
module Decimal {
  import opened Wrappers

  /** Bounds of Rust's `i32`. */
  const I32_MIN: int := -0x8000_0000
  const I32_MAX: int := 0x7fff_ffff

  predicate InI32(x: int) {
    I32_MIN <= x <= I32_MAX
  }

  predicate IsDigit(ch: char) {
    '0' <= ch <= '9'
  }

  predicate AllDigits(s: string) {
    forall i :: 0 <= i < |s| ==> IsDigit(s[i])
  }

  function DigitChar(d: nat): (ch: char)
    requires d < 10
    ensures IsDigit(ch)
  {
    ('0' as int + d) as char
  }

  function DigitValue(ch: char): (d: nat)
    requires IsDigit(ch)
    ensures d < 10 && DigitChar(d) == ch
  {
    (ch as int - '0' as int) as nat
  }

  /** A non-empty run of digits without a superfluous leading zero. */
  predicate CanonicalDigits(s: string) {
    |s| > 0 && AllDigits(s) && (s[0] == '0' ==> |s| == 1)
  }

  /** The form `to_string` produces: canonical digits, with a leading '-' for negatives only ("-0" is excluded). */
  predicate Canonical(s: string) {
    if |s| > 0 && s[0] == '-' then CanonicalDigits(s[1..]) && s[1..] != "0"
    else CanonicalDigits(s)
  }

  /** The digits of a natural number, most significant first. */
  function NatToString(n: nat): (s: string)
    ensures CanonicalDigits(s)
    ensures s == "0" <==> n == 0
    decreases n
  {
    if n < 10 then [DigitChar(n)] else NatToString(n / 10) + [DigitChar(n % 10)]
  }

  /** `i32::to_string` (Display) on a signed integer. */
  function IntToString(x: int): (s: string)
    ensures Canonical(s)
    ensures s[0] == '-' <==> x < 0
  {
    if x < 0 then "-" + NatToString(-x) else NatToString(x)
  }

  /** The value of a run of decimal digits, most significant first. */
  function DigitsValue(s: string): nat
    requires AllDigits(s)
  {
    if s == [] then 0 else DigitsValue(s[..|s| - 1]) * 10 + DigitValue(s[|s| - 1])
  }

  /**
    `str::parse::<i32>`: an optional '+' or '-' sign, then at least one decimal
    digit and nothing else; the value must lie in the i32 range.
   */
  function ParseI32(s: string): (r: Option<int>)
    ensures r.Some? ==> InI32(r.value)
    ensures r.Some? ==> |s| > 0 && (r.value < 0 ==> s[0] == '-')
  {
    if |s| == 0 then None
    else
      var negative := s[0] == '-';
      var digits := if s[0] == '-' || s[0] == '+' then s[1..] else s;
      if |digits| == 0 || !AllDigits(digits) then None
      else
        var v: int := if negative then -(DigitsValue(digits) as int) else DigitsValue(digits);
        if InI32(v) then Some(v) else None
  }

  lemma {:induction false} DigitsValueOfNatToString(n: nat)
    ensures DigitsValue(NatToString(n)) == n
    decreases n
  {
    var s := NatToString(n);
    if n >= 10 {
      DigitsValueOfNatToString(n / 10);
      assert s[..|s| - 1] == NatToString(n / 10);
    }
  }

  /** A run of digits that does not start with '0' has a positive value. */
  lemma {:induction false} LeadingNonZeroIsPositive(s: string)
    requires |s| > 0 && AllDigits(s) && s[0] != '0'
    ensures DigitsValue(s) > 0
    decreases |s|
  {
    if |s| > 1 {
      LeadingNonZeroIsPositive(s[..|s| - 1]);
    }
  }

  lemma {:induction false} NatToStringOfDigitsValue(s: string)
    requires CanonicalDigits(s)
    ensures NatToString(DigitsValue(s)) == s
    decreases |s|
  {
    var v := DigitsValue(s);
    if |s| > 1 {
      var init := s[..|s| - 1];
      LeadingNonZeroIsPositive(init);
      NatToStringOfDigitsValue(init);
      assert v / 10 == DigitsValue(init) && v % 10 == DigitValue(s[|s| - 1]);
      assert s == init + [s[|s| - 1]];
    }
  }

  /** Parsing the rendering of any i32 gives it back. */
  lemma ParseIntToString(x: int)
    requires InI32(x)
    ensures ParseI32(IntToString(x)) == Some(x)
  {
    var s := IntToString(x);
    if x < 0 {
      assert s[1..] == NatToString(-x);
      DigitsValueOfNatToString(-x);
    } else {
      DigitsValueOfNatToString(x);
    }
  }

  /** Rendering the value of a canonical string that parses gives the string back. */
  lemma IntToStringOfParse(s: string)
    requires Canonical(s) && ParseI32(s).Some?
    ensures IntToString(ParseI32(s).value) == s
  {
    var v := ParseI32(s).value;
    if s[0] == '-' {
      var digits := s[1..];
      NatToStringOfDigitsValue(digits);
      LeadingNonZeroIsPositive(digits);
      assert IntToString(v) == "-" + digits;
      assert s == [s[0]] + digits;
    } else {
      NatToStringOfDigitsValue(s);
    }
  }

  /** Distinct i32 values render as distinct texts. */
  lemma IntToStringInjective(x: int, y: int)
    requires InI32(x) && InI32(y) && x != y
    ensures IntToString(x) != IntToString(y)
  {
    ParseIntToString(x);
    ParseIntToString(y);
  }
}
