/**
  The time fields the page derives from the current instant: zero padding,
  the 12-hour display hour and the AM/PM indicator.
*/
module TimeFormat {
  import opened Numbers

  /** The wall-clock fields of the current instant in the selected zone, as
      `getHours`, `getMinutes` and `getSeconds` return them. */
  datatype WallTime = WallTime(hour: nat, minute: nat, second: nat) {
    predicate Valid() {
      hour < 24 && minute < 60 && second < 60
    }
  }

  /** `s.padStart(width, fill)` for a one-character fill string. */
  function PadStart(s: string, width: nat, fill: char): (r: string)
    ensures |r| == if |s| < width then width else |s|
    ensures r[|r| - |s|..] == s
    ensures forall i :: 0 <= i < |r| - |s| ==> r[i] == fill
  {
    if |s| < width then seq(width - |s|, _ => fill) + s else s
  }

  /** `pad(n)`: `n.toString().padStart(2, "0")`. */
  function Pad(n: nat): string {
    PadStart(DecimalString(n), 2, '0')
  }

  /** For 0..99, `pad` gives exactly two decimal digits that denote n, the first
      of them a "0" exactly when n is a single digit. */
  lemma PadTwoDigits(n: nat)
    requires n <= 99
    ensures |Pad(n)| == 2 && IsDigit(Pad(n)[0]) && IsDigit(Pad(n)[1])
    ensures 10 * DigitValue(Pad(n)[0]) + DigitValue(Pad(n)[1]) == n
    ensures n < 10 <==> Pad(n)[0] == '0'
  {
    var d := DecimalString(n);
    DecimalStringLength(n);
    DecimalStringValue(n);
    if n < 10 {
      assert Pad(n) == ['0'] + d;
      assert d[..0] == [];
    } else {
      assert Pad(n) == d;
      assert d[..1][..0] == [];
    }
  }

  /** `pad` never truncates: its digits always denote n, and from 100 on it adds nothing. */
  lemma PadValue(n: nat)
    ensures |Pad(n)| >= 2 && AllDigits(Pad(n)) && DigitsValue(Pad(n)) == n
    ensures n >= 100 ==> Pad(n) == DecimalString(n)
  {
    DecimalStringLength(n);
    if n <= 99 {
      PadTwoDigits(n);
      TwoDigitsValue(Pad(n));
    } else {
      DecimalStringValue(n);
    }
  }

  lemma TwoDigitsValue(r: string)
    requires |r| == 2 && AllDigits(r)
    ensures DigitsValue(r) == 10 * DigitValue(r[0]) + DigitValue(r[1])
  {
    assert r[..1][..0] == [];
    assert DigitsValue(r[..1]) == DigitValue(r[0]);
  }

  /** `hour >= 12 ? "PM" : "AM"`. */
  function AmPm(hour: nat): string {
    if hour >= 12 then "PM" else "AM"
  }

  /** `is24h ? hour : hour % 12 || 12`: the `||` turns a zero remainder into 12. */
  function DisplayHour(hour: nat, is24h: bool): nat {
    if is24h then hour else if hour % 12 == 0 then 12 else hour % 12
  }

  /** How a reader of a 12-hour clock recovers the 24-hour hour. */
  function Hour24(displayed: nat, meridiem: string): nat {
    displayed % 12 + (if meridiem == "PM" then 12 else 0)
  }

  /** In 12-hour mode the displayed hour is hour mod 12 with 0 shown as 12, so it
      lies in 1..12; in 24-hour mode it is the hour itself. */
  lemma DisplayHourRange(hour: nat)
    requires hour < 24
    ensures 1 <= DisplayHour(hour, false) <= 12
    ensures DisplayHour(hour, false) % 12 == hour % 12
    ensures DisplayHour(hour, false) == 12 <==> hour % 12 == 0
    ensures DisplayHour(hour, true) == hour
  {
  }

  /** The 12-hour display and the AM/PM indicator together lose nothing: they
      determine the 24-hour hour. */
  lemma TwelveHourRoundTrip(hour: nat)
    requires hour < 24
    ensures AmPm(hour) == "PM" <==> hour >= 12
    ensures Hour24(DisplayHour(hour, false), AmPm(hour)) == hour
  {
  }

  /** The padded display hour is two digits that, read back (with the AM/PM
      indicator in 12-hour mode), give the hour. */
  lemma PaddedHourReadsBack(hour: nat, is24h: bool)
    requires hour < 24
    ensures |Pad(DisplayHour(hour, is24h))| == 2 && AllDigits(Pad(DisplayHour(hour, is24h)))
    ensures is24h ==> DigitsValue(Pad(DisplayHour(hour, is24h))) == hour
    ensures !is24h ==> 1 <= DigitsValue(Pad(DisplayHour(hour, is24h))) <= 12 &&
                       Hour24(DigitsValue(Pad(DisplayHour(hour, is24h))), AmPm(hour)) == hour
  {
    DisplayHourRange(hour);
    TwelveHourRoundTrip(hour);
    PadValue(DisplayHour(hour, is24h));
    PadTwoDigits(DisplayHour(hour, is24h));
  }

  /** A time shown as three padded numerals, with the AM/PM indicator in
      12-hour mode, reads back as that time. */
  lemma ShownTimeReadsBack(t: WallTime, is24h: bool)
    requires t.Valid()
    ensures var fields := [Pad(DisplayHour(t.hour, is24h)), Pad(t.minute), Pad(t.second)];
      && (forall k :: 0 <= k < 3 ==> |fields[k]| == 2 && AllDigits(fields[k]))
      && DigitsValue(fields[1]) == t.minute && DigitsValue(fields[2]) == t.second
      && (is24h ==> DigitsValue(fields[0]) == t.hour)
      && (!is24h ==> 1 <= DigitsValue(fields[0]) <= 12 && Hour24(DigitsValue(fields[0]), AmPm(t.hour)) == t.hour)
  {
    PaddedHourReadsBack(t.hour, is24h);
    PaddedFieldReadsBack(t.minute);
    PaddedFieldReadsBack(t.second);
  }

  /** A padded minute or second is two digits that read back as the value. */
  lemma PaddedFieldReadsBack(n: nat)
    requires n < 60
    ensures |Pad(n)| == 2 && AllDigits(Pad(n)) && DigitsValue(Pad(n)) == n
  {
    PadValue(n);
    PadTwoDigits(n);
  }
}
