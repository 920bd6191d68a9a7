/**
 * `getCurrentDate`: the `YYYY-MM-DD` text used as the smallest selectable start
 * date. The clock reading is replaced by its three parts, as `Date` reports
 * them: the full year, the zero-based month and the day of the month.
 */
module DateFormat {
  import opened Wrappers
  import opened Decimal

  datatype CalendarDate = CalendarDate(year: int, month: int, day: int)

  /** `${year}-${month}-${day}` with month (one-based) and day padded to two digits. */
  function CurrentDateText(year: int, month0: int, day: int): (r: string)
    ensures |r| >= |IntToString(year)| + 6
  {
    IntToString(year) + "-" + PadStart(IntToString(month0 + 1), 2, '0') + "-"
      + PadStart(IntToString(day), 2, '0')
  }

  /** Reads a `YYYY-MM-DD` text back into its numbers; anything else has none. */
  function ParseIsoDate(s: string): (r: Option<CalendarDate>)
    ensures r.Some? ==> |s| == 10 && s[4] == '-' && s[7] == '-'
  {
    if |s| == 10 && s[4] == '-' && s[7] == '-'
       && AllDigits(s[..4]) && AllDigits(s[5..7]) && AllDigits(s[8..])
    then Some(CalendarDate(DigitsValue(s[..4]), DigitsValue(s[5..7]), DigitsValue(s[8..])))
    else None
  }

  /** A two-digit field: the padded text of a number below 100 is two digits and reads back as it. */
  lemma TwoDigitField(n: int)
    requires 0 <= n < 100
    ensures |PadStart(IntToString(n), 2, '0')| == 2
    ensures AllDigits(PadStart(IntToString(n), 2, '0'))
    ensures DigitsValue(PadStart(IntToString(n), 2, '0')) == n
  {
    DigitsValueOfDecimal(n);
    if n >= 10 {
      DecimalLength(n, 2);
    }
    DigitsValueZeroPadded(IntToString(n), 2);
  }

  /**
   * For a four-digit year (the years the date input accepts), the text is
   * exactly ten characters and parses back to the same year, the one-based
   * month and the day.
   */
  lemma CurrentDateTextRoundTrip(year: int, month0: int, day: int)
    requires 1000 <= year <= 9999 && 0 <= month0 <= 11 && 1 <= day <= 31
    ensures |CurrentDateText(year, month0, day)| == 10
    ensures ParseIsoDate(CurrentDateText(year, month0, day)) == Some(CalendarDate(year, month0 + 1, day))
  {
    var y := IntToString(year);
    var m := PadStart(IntToString(month0 + 1), 2, '0');
    var d := PadStart(IntToString(day), 2, '0');
    DecimalLength(year, 4);
    DigitsValueOfDecimal(year);
    TwoDigitField(month0 + 1);
    TwoDigitField(day);
    ParseJoinedFields(y, m, d);
  }

  /** Four digits, a dash, two digits, a dash and two digits parse to the values of the three runs. */
  lemma ParseJoinedFields(y: string, m: string, d: string)
    requires |y| == 4 && |m| == 2 && |d| == 2
    requires AllDigits(y) && AllDigits(m) && AllDigits(d)
    ensures ParseIsoDate(y + "-" + m + "-" + d)
            == Some(CalendarDate(DigitsValue(y), DigitsValue(m), DigitsValue(d)))
  {
    var r := y + "-" + m + "-" + d;
    assert r[..4] == y && r[5..7] == m && r[8..] == d;
  }
}
