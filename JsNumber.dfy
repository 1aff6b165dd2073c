/** Integers written into strings (`${n}` in a template literal) and read
    back from them (`parseInt`), in base 10. */
module JsNumber {
  import opened JsValue

  predicate IsDigit(c: char)
  {
    '0' <= c <= '9'
  }

  predicate AllDigits(s: string)
  {
    forall i :: 0 <= i < |s| ==> IsDigit(s[i])
  }

  function DigitChar(d: nat): (c: char)
    requires d < 10
    ensures IsDigit(c) && c as int - '0' as int == d
  {
    ('0' as int + d) as char
  }

  /** The decimal numeral of a natural number, without leading zeros. */
  function NatToString(n: nat): (s: string)
    ensures |s| >= 1 && AllDigits(s)
    ensures s[0] == '0' ==> n == 0
    decreases n
  {
    if n < 10 then [DigitChar(n)] else NatToString(n / 10) + [DigitChar(n % 10)]
  }

  /** `${n}` for an integer `n`: a minus sign exactly for negatives, then
      decimal digits with no leading zero except in `0` itself. */
  function NumberToString(n: int): (s: string)
    ensures |s| >= 1 && (s[0] == '-' <==> n < 0)
    ensures var digits := if n < 0 then s[1..] else s;
            |digits| >= 1 && AllDigits(digits) && (digits[0] == '0' ==> n == 0)
  {
    if n < 0 then "-" + NatToString(-n) else NatToString(n)
  }

  /** The value of a string of decimal digits, most significant first; the
      empty string counts as 0. */
  function DigitsValue(s: string): nat
    requires AllDigits(s)
    decreases |s|
  {
    if s == [] then 0 else DigitsValue(s[..|s| - 1]) * 10 + (s[|s| - 1] as int - '0' as int)
  }

  /** The length of the longest prefix of `s` made of decimal digits. */
  function LeadingDigits(s: string): (k: nat)
    ensures k <= |s| && AllDigits(s[..k])
    ensures k < |s| ==> !IsDigit(s[k])
    decreases |s|
  {
    if s == [] || !IsDigit(s[0]) then 0 else 1 + LeadingDigits(s[1..])
  }

  /** Reads the leading digits of `s`; NaN (`None`) when there are none. */
  function ParseDigits(s: string): Option<nat>
  {
    var k := LeadingDigits(s);
    if k == 0 then None else Some(DigitsValue(s[..k]))
  }

  /** `parseInt(s)` on a string without leading white space or a `0x`
      prefix: an optional sign, then the leading decimal digits; the rest of
      the string is ignored, and NaN (`None`) results when no digit follows
      the sign. */
  function ParseInt(s: string): (r: Option<int>)
    ensures r.Some? <==> ParseDigits(if |s| > 0 && (s[0] == '-' || s[0] == '+') then s[1..] else s).Some?
  {
    if |s| > 0 && (s[0] == '-' || s[0] == '+') then
      match ParseDigits(s[1..])
      case None => None
      case Some(v) => var magnitude: int := v; Some(if s[0] == '-' then -magnitude else magnitude)
    else
      match ParseDigits(s)
      case None => None
      case Some(v) => var magnitude: int := v; Some(magnitude)
  }

  lemma {:induction false} DigitsValueOfNatToString(n: nat)
    ensures DigitsValue(NatToString(n)) == n
    decreases n
  {
    if n >= 10 {
      var s := NatToString(n);
      assert s[..|s| - 1] == NatToString(n / 10);
      DigitsValueOfNatToString(n / 10);
    }
  }

  /** A string of digits followed by anything that does not start with a
      digit has exactly those digits as its leading digits. */
  lemma {:induction false} LeadingDigitsOfNumeral(digits: string, rest: string)
    requires AllDigits(digits) && (rest == [] || !IsDigit(rest[0]))
    ensures LeadingDigits(digits + rest) == |digits|
    decreases |digits|
  {
    if digits != [] {
      assert (digits + rest)[1..] == digits[1..] + rest;
      LeadingDigitsOfNumeral(digits[1..], rest);
    }
  }

  /** The leading digits of a numeral followed by a non-digit are the
      numeral's value. */
  lemma ParseDigitsOfNumeral(m: nat, rest: string)
    requires rest == [] || !IsDigit(rest[0])
    ensures ParseDigits(NatToString(m) + rest) == Some(m)
  {
    var digits := NatToString(m);
    LeadingDigitsOfNumeral(digits, rest);
    assert (digits + rest)[..|digits|] == digits;
    DigitsValueOfNatToString(m);
  }

  /** A leading minus sign negates the digits after it. */
  lemma ParseIntOfNegative(s: string, m: nat)
    requires |s| > 0 && s[0] == '-' && ParseDigits(s[1..]) == Some(m)
    ensures ParseInt(s) == Some(-(m as int))
  {
  }

  /** A string that starts with a digit is read by its leading digits. */
  lemma ParseIntOfUnsigned(s: string, m: nat)
    requires |s| > 0 && IsDigit(s[0]) && ParseDigits(s) == Some(m)
    ensures ParseInt(s) == Some(m)
  {
  }

  /** `parseInt` reads a numeral and ignores whatever follows it, provided
      that does not start with a digit: `parseInt(`${n}` + rest) === n`. */
  lemma ParseIntIgnoresRest(n: int, rest: string)
    requires rest == [] || !IsDigit(rest[0])
    ensures ParseInt(NumberToString(n) + rest) == Some(n)
  {
    if n < 0 {
      var tail := NatToString(-n) + rest;
      var text := "-" + tail;
      assert NumberToString(n) + rest == text;
      assert text[1..] == tail;
      ParseDigitsOfNumeral(-n, rest);
      ParseIntOfNegative(text, -n);
    } else {
      var text := NatToString(n) + rest;
      assert NumberToString(n) + rest == text;
      assert text[0] == NatToString(n)[0];
      ParseDigitsOfNumeral(n, rest);
      ParseIntOfUnsigned(text, n);
    }
  }

  /** Reading back a numeral gives the number written: `parseInt(`${n}`) === n`. */
  lemma ParseIntOfNumberToString(n: int)
    ensures ParseInt(NumberToString(n)) == Some(n)
  {
    ParseIntIgnoresRest(n, []);
    assert NumberToString(n) + [] == NumberToString(n);
  }

  /** Different numbers are written as different numerals. */
  lemma NumberToStringInjective(a: int, b: int)
    requires NumberToString(a) == NumberToString(b)
    ensures a == b
  {
    ParseIntOfNumberToString(a);
    ParseIntOfNumberToString(b);
  }
}
