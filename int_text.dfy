/**
 * Decimal integer text, as Python's `int(str)` reads it for the `duration`
 * parameter. This is a simplification of Python's grammar: an optional
 * sign followed by one or more ASCII digits. Surrounding whitespace,
 * underscores between digits and non-ASCII digits, which Python also
 * accepts, are not modelled.
 */
module IntText {
  import opened Wrappers

  predicate IsDigit(ch: char)
  {
    '0' <= ch <= '9'
  }

  predicate AllDigits(s: string)
  {
    forall i :: 0 <= i < |s| ==> IsDigit(s[i])
  }

  /** The value of a string of decimal digits, most significant first. */
  function DigitsValue(s: string): nat
    requires AllDigits(s)
    decreases |s|
  {
    if s == [] then 0 else DigitsValue(s[..|s| - 1]) * 10 + (s[|s| - 1] as int - '0' as int)
  }

  /** `int(s)`: the integer an optional sign and a run of digits denote; None where Python raises ValueError. */
  function ParseInt(s: string): (r: Option<int>)
    ensures r.Some? <==>
      (|s| > 1 && (s[0] == '-' || s[0] == '+') && AllDigits(s[1..])) || (|s| > 0 && AllDigits(s))
    ensures r.Some? && |s| > 0 && s[0] == '-' ==> r.value <= 0
    ensures r.Some? && |s| > 0 && s[0] != '-' ==> r.value >= 0
  {
    if |s| > 1 && (s[0] == '-' || s[0] == '+') && AllDigits(s[1..]) then
      var magnitude: int := DigitsValue(s[1..]);
      Some(if s[0] == '-' then -magnitude else magnitude)
    else if |s| > 0 && AllDigits(s) then
      Some(DigitsValue(s))
    else
      None
  }

  function DigitChar(d: nat): (ch: char)
    requires d < 10
    ensures IsDigit(ch) && ch as int - '0' as int == d
  {
    ('0' as int + d) as char
  }

  /** The shortest decimal text of a natural number. */
  function NatToText(n: nat): (s: string)
    ensures |s| > 0 && AllDigits(s)
    decreases n
  {
    if n < 10 then [DigitChar(n)] else NatToText(n / 10) + [DigitChar(n % 10)]
  }

  /** The text `str(n)` gives for an integer: a minus sign for negatives, then the digits. */
  function IntToText(n: int): (s: string)
    ensures |s| > 0
  {
    if n < 0 then "-" + NatToText(-n) else NatToText(n)
  }

  lemma {:induction false} NatToTextValue(n: nat)
    ensures DigitsValue(NatToText(n)) == n
    decreases n
  {
    if n >= 10 {
      var s := NatToText(n);
      assert s[..|s| - 1] == NatToText(n / 10);
      NatToTextValue(n / 10);
    }
  }

  /** Reading back the text of any integer gives that integer. */
  lemma ParseIntRoundTrip(n: int)
    ensures ParseInt(IntToText(n)) == Some(n)
  {
    var s := IntToText(n);
    if n < 0 {
      assert s[1..] == NatToText(-n);
      NatToTextValue(-n);
    } else {
      assert IsDigit(s[0]);
      NatToTextValue(n);
    }
  }
}
