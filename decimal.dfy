/** How a template literal renders an integer (`${n}`): optional minus sign,
    then decimal digits without leading zeros; and the parse back. */
module Decimal {
  import opened Options

  const Digits := "0123456789"

  predicate IsDigit(c: char) {
    '0' <= c <= '9'
  }

  /** The decimal digits of `n`, most significant first. */
  function NatString(n: nat): (s: string)
    ensures |s| >= 1
    ensures forall k :: 0 <= k < |s| ==> IsDigit(s[k])
    ensures n > 0 ==> s[0] != '0'
  {
    if n < 10 then [Digits[n]] else NatString(n / 10) + [Digits[n % 10]]
  }

  function IntString(i: int): (s: string)
    ensures |s| >= 1 && ' ' !in s
  {
    if i < 0 then ['-'] + NatString(-i) else NatString(i)
  }

  /** The value of a non-empty string of digits; `None` for anything else. */
  function DigitsValue(s: string): Option<nat> {
    if s == [] || !IsDigit(s[|s| - 1]) then None
    else
      var last := (s[|s| - 1] as int) - ('0' as int);
      if |s| == 1 then Some(last)
      else match DigitsValue(s[..|s| - 1])
        case None => None
        case Some(v) => Some(v * 10 + last)
  }

  /** Reads back an optional minus sign followed by digits. */
  function ParseInt(s: string): Option<int> {
    if |s| >= 1 && s[0] == '-' then
      match DigitsValue(s[1..])
      case None => None
      case Some(v) => Some(0 - v)
    else
      match DigitsValue(s)
      case None => None
      case Some(v) => Some(v)
  }

  lemma {:induction false} NatStringRoundTrip(n: nat)
    ensures DigitsValue(NatString(n)) == Some(n)
  {
    if n >= 10 {
      var s := NatString(n);
      assert s[..|s| - 1] == NatString(n / 10);
      NatStringRoundTrip(n / 10);
    }
  }

  /** Parsing the rendered integer gives the integer back. */
  lemma IntStringRoundTrip(i: int)
    ensures ParseInt(IntString(i)) == Some(i)
  {
    if i < 0 {
      var digits := NatString(-i);
      assert (['-'] + digits)[1..] == digits;
      NatStringRoundTrip(-i);
    } else {
      NatStringRoundTrip(i);
    }
  }
}
