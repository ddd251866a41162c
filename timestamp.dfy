/** The timestamp in the name of each output file: Go's reference layout
    `2006-01-02-15-04-05`, that is year, month, day, hour (24-hour clock),
    minute and second, each zero-padded and separated by hyphens. */
module Timestamp {
  import opened Wrappers

  /** A wall-clock reading, to the second. */
  datatype DateTime = DateTime(year: nat, month: nat, day: nat, hour: nat, minute: nat, second: nat)

  predicate IsLeapYear(y: nat)
  {
    y % 4 == 0 && (y % 100 != 0 || y % 400 == 0)
  }

  function DaysIn(month: nat, year: nat): nat
  {
    if month == 2 then (if IsLeapYear(year) then 29 else 28)
    else if month == 4 || month == 6 || month == 9 || month == 11 then 30
    else 31
  }

  /** A calendar date and time of day; years are those the layout prints
      with exactly four digits. */
  predicate Valid(d: DateTime)
  {
    && d.year <= 9999
    && 1 <= d.month <= 12
    && 1 <= d.day <= DaysIn(d.month, d.year)
    && d.hour < 24 && d.minute < 60 && d.second < 60
  }

  function Pow10(n: nat): (r: nat)
    ensures r >= 1
  {
    if n == 0 then 1 else 10 * Pow10(n - 1)
  }

  predicate IsDigit(c: char)
  {
    '0' <= c <= '9'
  }

  function DigitChar(v: nat): char
    requires v < 10
  {
    ('0' as int + v) as char
  }

  function DigitValue(c: char): nat
    requires IsDigit(c)
  {
    c as int - '0' as int
  }

  /** The last `width` decimal digits of `n`, zero-padded on the left. */
  function Digits(n: nat, width: nat): (r: string)
    ensures |r| == width
    ensures forall i | 0 <= i < width :: IsDigit(r[i])
  {
    if width == 0 then "" else Digits(n / 10, width - 1) + [DigitChar(n % 10)]
  }

  /** The number a string of decimal digits denotes. */
  function Value(s: string): nat
    requires forall i | 0 <= i < |s| :: IsDigit(s[i])
  {
    if |s| == 0 then 0 else 10 * Value(s[..|s| - 1]) + DigitValue(s[|s| - 1])
  }

  /** Reading back the padded digits of a number that fits the width gives
      the number. */
  lemma {:induction false} ValueDigits(n: nat, width: nat)
    requires n < Pow10(width)
    ensures Value(Digits(n, width)) == n
  {
    if width > 0 {
      var r := Digits(n, width);
      assert r[..width - 1] == Digits(n / 10, width - 1);
      ValueDigits(n / 10, width - 1);
    }
  }

  /** `now.Format("2006-01-02-15-04-05")` */
  function Format(d: DateTime): (r: string)
    ensures |r| == 19
  {
    Digits(d.year, 4) + "-" + Digits(d.month, 2) + "-" + Digits(d.day, 2) + "-"
      + Digits(d.hour, 2) + "-" + Digits(d.minute, 2) + "-" + Digits(d.second, 2)
  }

  /** The reading of a formatted timestamp: the inverse of `Format`. */
  function Parse(s: string): (r: Option<DateTime>)
    ensures r.Some? ==> Valid(r.value)
  {
    if |s| != 19 || s[4] != '-' || s[7] != '-' || s[10] != '-' || s[13] != '-' || s[16] != '-' then None
    else if !(forall i | 0 <= i < 19 && i !in {4, 7, 10, 13, 16} :: IsDigit(s[i])) then None
    else
      var d := DateTime(Value(s[0..4]), Value(s[5..7]), Value(s[8..10]),
                        Value(s[11..13]), Value(s[14..16]), Value(s[17..19]));
      if Valid(d) then Some(d) else None
  }

  /** Formatting loses nothing: a valid time is read back exactly. */
  lemma ParseFormat(d: DateTime)
    requires Valid(d)
    ensures Parse(Format(d)) == Some(d)
  {
    var s := Format(d);
    assert s[0..4] == Digits(d.year, 4);
    assert s[5..7] == Digits(d.month, 2);
    assert s[8..10] == Digits(d.day, 2);
    assert s[11..13] == Digits(d.hour, 2);
    assert s[14..16] == Digits(d.minute, 2);
    assert s[17..19] == Digits(d.second, 2);
    assert Pow10(2) == 100 && Pow10(4) == 10000;
    ValueDigits(d.year, 4);
    ValueDigits(d.month, 2);
    ValueDigits(d.day, 2);
    ValueDigits(d.hour, 2);
    ValueDigits(d.minute, 2);
    ValueDigits(d.second, 2);
  }

  /** Two different valid times never format to the same text. */
  lemma FormatInjective(d: DateTime, e: DateTime)
    requires Valid(d) && Valid(e) && Format(d) == Format(e)
    ensures d == e
  {
    ParseFormat(d);
    ParseFormat(e);
  }
}
