/** The 64-bit integers of the language: the range of Rust's `i64`, the
    decimal parse `str::parse::<i64>` that the lexer and the interpreter call,
    and the decimal form `{}` that `print` writes. */
module Numerics {
  import opened Wrappers

  const I64_MIN: int := -0x8000_0000_0000_0000
  const I64_MAX: int := 0x7FFF_FFFF_FFFF_FFFF

  /** An `i64` value. */
  type I64 = x: int | I64_MIN <= x <= I64_MAX

  /** `char::is_digit(10)`: ASCII decimal digits only. */
  predicate IsDigit(c: char) {
    '0' <= c <= '9'
  }

  predicate AllDigits(s: string) {
    forall k | 0 <= k < |s| :: IsDigit(s[k])
  }

  function DigitValue(c: char): (d: nat)
    requires IsDigit(c)
    ensures d < 10
  {
    (c as int) - ('0' as int)
  }

  function DigitChar(d: nat): (c: char)
    requires d < 10
    ensures IsDigit(c) && DigitValue(c) == d
  {
    ('0' as int + d) as char
  }

  /** The value of a string of decimal digits, most significant first. */
  function DigitsValue(ds: string): nat
    requires AllDigits(ds)
  {
    if ds == [] then 0 else DigitsValue(ds[..|ds| - 1]) * 10 + DigitValue(ds[|ds| - 1])
  }

  /** Rust's `str::parse::<i64>`: an optional `+` or `-`, then at least one
      ASCII digit and nothing else, and a value inside the `i64` range;
      anything else is a parse error (`None`). */
  function ParseI64(s: string): (r: Option<I64>)
    ensures r.Some? ==> |s| > 0
    ensures r.Some? && AllDigits(s) ==> r.value == DigitsValue(s)
    ensures AllDigits(s) && s != [] && DigitsValue(s) <= I64_MAX ==> r == Some(DigitsValue(s))
    ensures AllDigits(s) && s != [] && DigitsValue(s) > I64_MAX ==> r == None
    ensures |s| > 1 && s[0] == '+' && AllDigits(s[1..]) && DigitsValue(s[1..]) <= I64_MAX ==>
              r == Some(DigitsValue(s[1..]))
    ensures |s| > 1 && s[0] == '-' && AllDigits(s[1..]) && I64_MIN <= -(DigitsValue(s[1..]) as int) ==>
              r == Some(-(DigitsValue(s[1..]) as int))
    ensures |s| > 0 && (s[0] == '+' || s[0] == '-') && (|s| == 1 || !AllDigits(s[1..])) ==> r == None
    ensures |s| > 0 && s[0] != '+' && s[0] != '-' && !AllDigits(s) ==> r == None
  {
    if |s| > 0 && (s[0] == '+' || s[0] == '-') then
      var ds := s[1..];
      if ds == [] || !AllDigits(ds) then None
      else
        var v: int := if s[0] == '-' then 0 - DigitsValue(ds) as int else DigitsValue(ds);
        if I64_MIN <= v <= I64_MAX then Some(v) else None
    else if s == [] || !AllDigits(s) then None
    else if DigitsValue(s) <= I64_MAX then Some(DigitsValue(s))
    else None
  }

  /** The decimal digits of a natural number, without leading zeros. */
  function NatToString(n: nat): (s: string)
    ensures |s| > 0 && AllDigits(s)
    decreases n
  {
    if n < 10 then [DigitChar(n)] else NatToString(n / 10) + [DigitChar(n % 10)]
  }

  /** Rust's `{}` on an `i64`: a `-` for negative values, then the digits. */
  function IntToString(i: int): string {
    if i < 0 then "-" + NatToString(-i) else NatToString(i)
  }

  lemma {:induction false} NatToStringValue(n: nat)
    ensures DigitsValue(NatToString(n)) == n
    decreases n
  {
    var s := NatToString(n);
    if n >= 10 {
      NatToStringValue(n / 10);
      assert s[..|s| - 1] == NatToString(n / 10);
    }
  }

  /** Printing an `i64` and parsing the text back gives the same value. */
  lemma PrintParseRoundTrip(i: I64)
    ensures ParseI64(IntToString(i)) == Some(i)
  {
    var s := IntToString(i);
    if i < 0 {
      NatToStringValue(-(i as int));
      assert s[1..] == NatToString(-(i as int));
      assert s[0] == '-';
    } else {
      NatToStringValue(i);
      assert !(s[0] == '+' || s[0] == '-') by { assert IsDigit(s[0]); }
    }
  }
}
