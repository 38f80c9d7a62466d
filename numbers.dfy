/**
  The number/string conversions the world clock relies on: `n.toString()` and
  `String(v)` when a field is padded or persisted, `Number(s)` when a stored
  style index is read back.
*/
module Numbers {

  /** A JavaScript number, reduced to what the clock can persist and read back:
      an integer, or NaN (what `Number` gives for a string that is no number). */
  datatype Num = Int(value: int) | NaN

  predicate IsDigit(c: char) {
    '0' <= c <= '9'
  }

  predicate AllDigits(s: string) {
    forall i :: 0 <= i < |s| ==> IsDigit(s[i])
  }

  function DigitValue(c: char): (d: nat)
    requires IsDigit(c)
    ensures d < 10
  {
    (c as int) - ('0' as int)
  }

  function DigitChar(d: nat): (c: char)
    requires d < 10
    ensures IsDigit(c) && DigitValue(c) == d
  {
    (('0' as int) + d) as char
  }

  /** The value of a string of decimal digits, most significant digit first. */
  function DigitsValue(s: string): nat
    requires AllDigits(s)
  {
    if s == [] then 0 else 10 * DigitsValue(s[..|s| - 1]) + DigitValue(s[|s| - 1])
  }

  /** `n.toString()` for a natural number: its decimal digits, with no leading zero. */
  function DecimalString(n: nat): (s: string)
    ensures |s| >= 1 && AllDigits(s)
    ensures s[0] == '0' ==> n == 0
  {
    if n < 10 then [DigitChar(n)] else DecimalString(n / 10) + [DigitChar(n % 10)]
  }

  /** The digits `toString` writes denote the number again. */
  lemma {:induction false} DecimalStringValue(n: nat)
    ensures DigitsValue(DecimalString(n)) == n
  {
    if n >= 10 {
      var s := DecimalString(n);
      assert s[..|s| - 1] == DecimalString(n / 10);
      DecimalStringValue(n / 10);
    }
  }

  /** One digit below 10, two below 100, three or more from 100 on. */
  lemma {:induction false} DecimalStringLength(n: nat)
    ensures n < 10 ==> |DecimalString(n)| == 1
    ensures 10 <= n < 100 ==> |DecimalString(n)| == 2
    ensures 100 <= n ==> |DecimalString(n)| >= 3
  {
    if n >= 10 {
      DecimalStringLength(n / 10);
    }
  }

  /** `String(v)`: decimal digits, a leading "-" for a negative integer, "NaN" for NaN. */
  function ToString(v: Num): string {
    match v
    case NaN => "NaN"
    case Int(i) => if i < 0 then "-" + DecimalString(-i) else DecimalString(i)
  }

  /** `Number(s)` on the strings this model covers: the empty string is 0, an
      optional sign followed by decimal digits is that integer, anything else is NaN. */
  function ToNumber(s: string): Num {
    if s == [] then Int(0)
    else if AllDigits(s) then Int(DigitsValue(s))
    else if (s[0] == '-' || s[0] == '+') && |s| > 1 && AllDigits(s[1..]) then
      Int(if s[0] == '-' then -(DigitsValue(s[1..]) as int) else DigitsValue(s[1..]))
    else NaN
  }

  /** `Number(String(v)) == v`: a persisted number reads back unchanged, NaN included. */
  lemma ToNumberInvertsToString(v: Num)
    ensures ToNumber(ToString(v)) == v
  {
    match v
    case NaN =>
      assert !IsDigit(ToString(v)[0]);
    case Int(i) =>
      if i < 0 {
        var s := ToString(v);
        assert !IsDigit(s[0]);
        assert s[1..] == DecimalString(-i);
        DecimalStringValue(-i);
      } else {
        DecimalStringValue(i);
      }
  }
}
