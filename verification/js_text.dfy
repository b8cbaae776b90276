/**
 * The JavaScript string semantics the driver relies on: `substring` with its
 * clamping and swapping, truthiness of an optional string, and the decimal
 * numeral that a template or `+` produces from a non-negative integer.
 */
module JsText {
  import opened Wrappers

  /** Clamps an index into [0, len], as `substring` does with its arguments. */
  function Clamp(i: int, len: nat): (r: nat)
    ensures r <= len
    ensures 0 <= i <= len ==> r == i
  {
    if i < 0 then 0 else if i > len then len else i
  }

  /**
   * `s.substring(start, end)`. An absent start (undefined, read as NaN) counts
   * as 0 and an absent end as the length; both are clamped into [0, |s|] and
   * swapped when start exceeds end.
   */
  function Substring(s: string, start: Option<int>, end: Option<int>): (r: string)
    ensures |r| <= |s|
  {
    var a := Clamp(match start case Some(i) => i case None => 0, |s|);
    var b := match end case Some(j) => Clamp(j, |s|) case None => |s|;
    if a <= b then s[a..b] else s[b..a]
  }

  lemma SubstringFrom(s: string, k: int)
    ensures 0 <= k <= |s| ==> Substring(s, Some(k), None) == s[k..]
    ensures k < 0 ==> Substring(s, Some(k), None) == s
  {
  }

  /** True when `suffix` ends `s`. */
  predicate EndsWith(s: string, suffix: string)
  {
    |suffix| <= |s| && s[|s| - |suffix|..] == suffix
  }

  /** JavaScript truthiness of a string-valued option: absent and "" are both false. */
  predicate Truthy(s: Option<string>)
  {
    s.Some? && s.value != ""
  }

  predicate IsDigit(c: char)
  {
    '0' <= c <= '9'
  }

  predicate AllDigits(s: string)
  {
    forall i :: 0 <= i < |s| ==> IsDigit(s[i])
  }

  function DigitChar(d: nat): (c: char)
    requires d < 10
    ensures IsDigit(c)
  {
    ('0' as int + d) as char
  }

  function DigitValue(c: char): (d: nat)
    requires IsDigit(c)
    ensures d < 10 && DigitChar(d) == c
  {
    (c as int - '0' as int) as nat
  }

  /** The decimal numeral of `n`, as `"" + n` gives for a non-negative integer. */
  function Decimal(n: nat): (s: string)
    ensures |s| > 0 && AllDigits(s)
  {
    if n < 10 then [DigitChar(n)] else Decimal(n / 10) + [DigitChar(n % 10)]
  }

  /** The value of a string of decimal digits. */
  function DecimalValue(s: string): nat
    requires AllDigits(s)
  {
    if s == [] then 0 else DecimalValue(s[..|s| - 1]) * 10 + DigitValue(s[|s| - 1])
  }

  /** Reading back a numeral gives the number that was written. */
  lemma {:induction false} DecimalRoundTrip(n: nat)
    ensures DecimalValue(Decimal(n)) == n
  {
    if n >= 10 {
      var s := Decimal(n);
      assert s[..|s| - 1] == Decimal(n / 10);
      DecimalRoundTrip(n / 10);
    }
  }

  /** The longest prefix of `s` made of decimal digits. */
  function LeadingDigits(s: string): (r: string)
    ensures r <= s && AllDigits(r)
    ensures |r| < |s| ==> !IsDigit(s[|r|])
  {
    if s == [] || !IsDigit(s[0]) then [] else [s[0]] + LeadingDigits(s[1..])
  }

  /** The digits of a numeral followed by a non-digit are exactly the numeral. */
  lemma {:induction false} LeadingDigitsOfNumeral(digits: string, rest: string)
    requires AllDigits(digits)
    requires rest != [] && !IsDigit(rest[0])
    ensures LeadingDigits(digits + rest) == digits
  {
    if digits != [] {
      assert (digits + rest)[1..] == digits[1..] + rest;
      LeadingDigitsOfNumeral(digits[1..], rest);
    }
  }
}
