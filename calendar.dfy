/**
 * Calendar dates as the screens read them from `Date` objects: year, month (1..12,
 * the ISO numbering; `getMonth()` is this minus one) and day of the month.
 */
module Calendar {
  import opened Wrappers
  import opened Text

  datatype Date = Date(year: int, month: int, day: int)

  predicate IsLeapYear(y: int) {
    (y % 4 == 0 && y % 100 != 0) || y % 400 == 0
  }

  function DaysInMonth(y: int, m: int): int {
    if m == 2 then (if IsLeapYear(y) then 29 else 28)
    else if m == 4 || m == 6 || m == 9 || m == 11 then 30
    else 31
  }

  /** A date that exists on the Gregorian calendar. */
  predicate IsValidDate(d: Date) {
    1 <= d.month <= 12 && 1 <= d.day <= DaysInMonth(d.year, d.month)
  }

  /** Months elapsed since January of year 0. */
  function MonthIndex(d: Date): int {
    d.year * 12 + (d.month - 1)
  }

  /** `d` moved `k` calendar months on, the year carried; the day of the month is kept. */
  function AddMonths(d: Date, k: int): (r: Date)
    ensures MonthIndex(r) == MonthIndex(d) + k
    ensures 1 <= r.month <= 12
    ensures r.day == d.day
  {
    var m := d.month - 1 + k;
    Date(d.year + m / 12, m % 12 + 1, d.day)
  }

  /** `a` falls on or before `b` (year, then month, then day). */
  predicate OnOrBefore(a: Date, b: Date) {
    a.year < b.year
    || (a.year == b.year && (a.month < b.month || (a.month == b.month && a.day <= b.day)))
  }

  /**
   * The calendar date of a `YYYY-MM-DD` string, as the value of an `<input type="date">`
   * is written; anything else is an invalid date (None).
   */
  function ParseIsoDate(s: string): (r: Option<Date>)
    ensures r.Some? ==> IsValidDate(r.value) && 0 <= r.value.year <= 9999
  {
    if |s| == 10 && s[4] == '-' && s[7] == '-'
       && AllDigits(s[..4]) && AllDigits(s[5..7]) && AllDigits(s[8..])
    then
      var d := Date(DigitsValue(s[..4]), DigitsValue(s[5..7]), DigitsValue(s[8..]));
      assert d.year < Pow10(4) == 10000;
      if IsValidDate(d) then Some(d) else None
    else None
  }

  /** A date with at most four digits of year, as `YYYY-MM-DD` writes it. */
  predicate IsIsoWritable(d: Date) {
    IsValidDate(d) && 0 <= d.year <= 9999
  }

  /** `d` written `YYYY-MM-DD`, each field zero-padded. */
  function FormatIso(d: Date): (s: string)
    requires IsIsoWritable(d)
    ensures |s| == 10
  {
    PadDigits(d.year, 4) + "-" + PadDigits(d.month, 2) + "-" + PadDigits(d.day, 2)
  }

  /** The pieces of a written date: the year, month and day fields and the two dashes. */
  lemma FormatIsoPieces(d: Date)
    requires IsIsoWritable(d)
    ensures var s := FormatIso(d);
            s[..4] == PadDigits(d.year, 4) && s[4] == '-' && s[5..7] == PadDigits(d.month, 2)
            && s[7] == '-' && s[8..] == PadDigits(d.day, 2)
  {
  }

  /** Every date with a four-digit year reads back from its `YYYY-MM-DD` form. */
  lemma ParseFormatIso(d: Date)
    requires IsIsoWritable(d)
    ensures ParseIsoDate(FormatIso(d)) == Some(d)
  {
    FormatIsoPieces(d);
  }

  /** A string that reads as a date is that date's `YYYY-MM-DD` form, and nothing else reads as it. */
  lemma ParsedDateIsFormatted(s: string)
    requires ParseIsoDate(s).Some?
    ensures s == FormatIso(ParseIsoDate(s).value)
  {
    var d := ParseIsoDate(s).value;
    PadDigitsOfValue(s[..4]);
    PadDigitsOfValue(s[5..7]);
    PadDigitsOfValue(s[8..]);
    FormatIsoPieces(d);
    var f := FormatIso(d);
    assert s == s[..4] + [s[4]] + s[5..7] + [s[7]] + s[8..];
    assert f == f[..4] + [f[4]] + f[5..7] + [f[7]] + f[8..];
  }

  /** The day before `d`: no valid date lies strictly between the two. */
  function PreviousDay(d: Date): (r: Date)
    requires IsValidDate(d)
    ensures IsValidDate(r)
    ensures OnOrBefore(r, d) && r != d
    ensures forall e :: IsValidDate(e) && OnOrBefore(r, e) && OnOrBefore(e, d) ==> e == r || e == d
  {
    if d.day > 1 then Date(d.year, d.month, d.day - 1)
    else if d.month > 1 then Date(d.year, d.month - 1, DaysInMonth(d.year, d.month - 1))
    else Date(d.year - 1, 12, 31)
  }
}
