/** Decimal text to numbers: the digit helpers shared by the date parser and a
    decimal reader standing in for `strconv.ParseFloat`. Every call site in
    the core ignores the parse error and keeps the zero value, which
    `ParseFloatOrZero` reproduces. */
module Decimal {
  import opened Seqs
  import opened Text

  predicate AllDigits(s: string)
  {
    forall k :: 0 <= k < |s| ==> IsDigit(s[k])
  }

  function DigitValue(c: char): (r: nat)
    requires IsDigit(c)
    ensures r <= 9
  {
    c as int - '0' as int
  }

  function DigitChar(n: nat): (c: char)
    requires n <= 9
    ensures IsDigit(c) && DigitValue(c) == n
  {
    ('0' as int + n) as char
  }

  /** The natural number written by the digit string `s` ("" is 0). */
  function DigitsValue(s: string): (r: nat)
    requires AllDigits(s)
    ensures r < Pow10(|s|)
  {
    if s == [] then 0 else DigitsValue(s[..|s| - 1]) * 10 + DigitValue(s[|s| - 1])
  }

  function Pow10(n: nat): (r: nat)
    ensures r >= 1
  {
    if n == 0 then 1 else 10 * Pow10(n - 1)
  }

  /** digits, optionally followed by '.' and more digits; at least one digit. */
  function ParseUnsigned(s: string): (r: Option<real>)
    ensures r.Some? ==> r.value >= 0.0 && s != []
  {
    match FindFirst(s, c => c == '.')
    case None =>
      if s != [] && AllDigits(s) then Some(DigitsValue(s) as real) else None
    case Some(k) =>
      var whole, frac := s[..k], s[k + 1..];
      if AllDigits(whole) && AllDigits(frac) && |whole| + |frac| > 0 then
        Some(DigitsValue(whole) as real + DigitsValue(frac) as real / Pow10(|frac|) as real)
      else None
  }

  /** An optional sign followed by an unsigned decimal. */
  function ParseDecimal(s: string): (r: Option<real>)
    ensures r.Some? ==> s != []
    ensures s != [] && s[0] == '-' ==> r == (match ParseUnsigned(s[1..])
                                             case None => None
                                             case Some(v) => Some(-v))
  {
    if s != [] && s[0] == '-' then
      match ParseUnsigned(s[1..])
      case None => None
      case Some(v) => Some(-v)
    else if s != [] && s[0] == '+' then ParseUnsigned(s[1..])
    else ParseUnsigned(s)
  }

  /** `strconv.ParseFloat(s, 64)` with the error ignored: 0 when `s` is not a number. */
  function ParseFloatOrZero(s: string): real
  {
    match ParseDecimal(s)
    case None => 0.0
    case Some(v) => v
  }

  /** A minus sign negates an unsigned number, and an unreadable one stays 0. */
  lemma NegatedFloat(s: string)
    requires s != [] && s[0] != '-' && s[0] != '+'
    ensures ParseFloatOrZero("-" + s) == -ParseFloatOrZero(s)
  {
    assert ("-" + s)[1..] == s;
  }
}
