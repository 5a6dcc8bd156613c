/** The named date ranges of the search form and the directory-name format
    of a date (`src/utils/date_utils.py`).  The current day, which the source
    reads from the clock, is a parameter. */
module DateUtils {
  import opened Wrappers
  import opened Text
  import opened Calendar

  /** The range texts the source recognises; any other text means "today". */
  const RangeNames: seq<string> :=
    ["Today", "Yesterday", "This Week", "Last Week", "This Month", "Last Month",
     "Last 7 Days", "Last 30 Days"]

  /** Every date of year 2 or later lies more than a year after the first
      date, so the offsets below stay within `datetime.MINYEAR`. */
  lemma OrdinalAfterYearOne(d: Date)
    requires ValidDate(d) && d.year >= 2
    ensures Ordinal(d) > 365
  {
    DaysBeforeYearMonotone(1, d.year);
  }

  /** `parse_date_range(range_text)` with `today` the current day at midnight.
      The pair is (start, end). */
  function ParseDateRange(rangeText: string, today: Date): (r: (Date, Date))
    requires ValidDate(today) && today.year >= 2
    ensures ValidDate(r.0) && ValidDate(r.1)
  {
    OrdinalAfterYearOne(today);
    if rangeText == "Today" then (today, today)
    else if rangeText == "Yesterday" then
      var yesterday := SubDays(today, 1);
      (yesterday, yesterday)
    else if rangeText == "This Week" then
      (SubDays(today, Weekday(today)), today)
    else if rangeText == "Last Week" then
      var start := SubDays(today, Weekday(today) + 7);
      DateLeOrdinal(today, LastDate);
      (start, AddDays(start, 6))
    else if rangeText == "This Month" then
      (Date(today.year, today.month, 1), today)
    else if rangeText == "Last Month" then
      var firstThisMonth := Date(today.year, today.month, 1);
      var lastMonthEnd := SubDays(firstThisMonth, 1);
      (Date(lastMonthEnd.year, lastMonthEnd.month, 1), lastMonthEnd)
    else if rangeText == "Last 7 Days" then (SubDays(today, 6), today)
    else if rangeText == "Last 30 Days" then (SubDays(today, 29), today)
    else (today, today)
  }

  /** Every range, whatever its text, starts no later than it ends, and ends
      no later than today. */
  lemma RangeOrdered(rangeText: string, today: Date)
    requires ValidDate(today) && today.year >= 2
    ensures DateLe(ParseDateRange(rangeText, today).0, ParseDateRange(rangeText, today).1)
    ensures DateLe(ParseDateRange(rangeText, today).1, today)
  {
    var (s, e) := ParseDateRange(rangeText, today);
    if rangeText == "This Month" || rangeText == "Last Month" {
      MonthStart(today);
    }
    if rangeText == "Last Month" {
      var first := Date(today.year, today.month, 1);
      MonthStart(e);
      DateLeOrdinal(e, first);
      DateLeOrdinal(first, today);
    }
    DateLeOrdinal(s, e);
    DateLeOrdinal(e, today);
  }

  /** The first of a date's month is a valid date no later than it. */
  lemma MonthStart(d: Date)
    requires ValidDate(d)
    ensures ValidDate(Date(d.year, d.month, 1))
    ensures Ordinal(Date(d.year, d.month, 1)) == Ordinal(d) - (d.day - 1)
  {
  }

  /** "Today", "Yesterday", "Last 7 Days", "Last 30 Days" and every text the
      source does not recognise: ranges ending today (or yesterday) whose
      length in days is fixed. */
  lemma DayCountRanges(rangeText: string, today: Date)
    requires ValidDate(today) && today.year >= 2
    ensures rangeText !in RangeNames ==> ParseDateRange(rangeText, today) == (today, today)
    ensures rangeText == "Today" ==> ParseDateRange(rangeText, today) == (today, today)
    ensures rangeText == "Yesterday" ==>
      var (s, e) := ParseDateRange(rangeText, today);
      s == e && Ordinal(e) == Ordinal(today) - 1
    ensures rangeText == "Last 7 Days" ==>
      var (s, e) := ParseDateRange(rangeText, today);
      e == today && Ordinal(e) - Ordinal(s) + 1 == 7
    ensures rangeText == "Last 30 Days" ==>
      var (s, e) := ParseDateRange(rangeText, today);
      e == today && Ordinal(e) - Ordinal(s) + 1 == 30
  {
    if rangeText !in RangeNames {
      assert rangeText != RangeNames[0] && rangeText != RangeNames[1] && rangeText != RangeNames[2];
      assert rangeText != RangeNames[3] && rangeText != RangeNames[4] && rangeText != RangeNames[5];
      assert rangeText != RangeNames[6] && rangeText != RangeNames[7];
    }
  }

  /** Stepping back from a date by its weekday lands on a Monday; a further
      week back lands on a Monday too, and the day before that Monday is a
      Sunday. */
  lemma WeekdayBack(d: Date, s: Date, n: int)
    requires ValidDate(d) && ValidDate(s) && Ordinal(s) == Ordinal(d) - Weekday(d) - n
    ensures n == 0 || n == 7 ==> Weekday(s) == 0
    ensures n == 1 ==> Weekday(s) == 6
  {
    MondayOf(Ordinal(d));
  }

  lemma MondayOf(x: int)
    ensures var w := (x + 6) % 7;
      (x - w + 6) % 7 == 0 && (x - w - 7 + 6) % 7 == 0 && (x - w - 1 + 6) % 7 == 6
  {
    var w := (x + 6) % 7;
    var q := (x + 6) / 7;
    assert x - w + 6 == 7 * q;
  }

  /** "This Week" runs from the Monday of the current week to today. */
  lemma ThisWeekRange(today: Date)
    requires ValidDate(today) && today.year >= 2
    ensures var (s, e) := ParseDateRange("This Week", today);
      e == today && Weekday(s) == 0 && Ordinal(s) == Ordinal(today) - Weekday(today)
  {
    var (s, e) := ParseDateRange("This Week", today);
    assert s == SubDays(today, Weekday(today));
    WeekdayBack(today, s, 0);
  }

  lemma LastWeekOrdinals(today: Date)
    requires ValidDate(today) && today.year >= 2
    ensures var (s, e) := ParseDateRange("Last Week", today);
      Ordinal(s) == Ordinal(today) - Weekday(today) - 7 && Ordinal(e) == Ordinal(s) + 6
  {
    assert "Last Week" != "Today" && "Last Week" != "Yesterday" && "Last Week" != "This Week";
    OrdinalAfterYearOne(today);
    DateLeOrdinal(today, LastDate);
  }

  /** "Last Week" is the whole previous week: Monday to Sunday, ending the
      day before the Monday that starts "This Week". */
  lemma LastWeekRange(today: Date)
    requires ValidDate(today) && today.year >= 2
    ensures var (s, e) := ParseDateRange("Last Week", today);
      Weekday(s) == 0 && Weekday(e) == 6 && Ordinal(e) - Ordinal(s) == 6
      && Ordinal(e) == Ordinal(today) - Weekday(today) - 1
  {
    var (s, e) := ParseDateRange("Last Week", today);
    LastWeekOrdinals(today);
    WeekdayBack(today, s, 7);
    WeekdayBack(today, e, 1);
  }

  /** "This Month" starts on the first of the current month; "Last Month" is
      the whole previous calendar month, from its first to its last day. */
  lemma MonthRanges(today: Date)
    requires ValidDate(today) && today.year >= 2
    ensures ParseDateRange("This Month", today) == (Date(today.year, today.month, 1), today)
    ensures var (s, e) := ParseDateRange("Last Month", today);
      (if today.month == 1 then e.year == today.year - 1 && e.month == 12
       else e.year == today.year && e.month == today.month - 1)
      && e.day == DaysInMonth(e.year, e.month)
      && s == Date(e.year, e.month, 1)
  {
    var first := Date(today.year, today.month, 1);
    MonthStart(today);
    OrdinalAfterYearOne(today);
    assert first != FirstDate;
    PrevDayOrdinal(first);
    var p := PrevDay(first);
    assert SubDays(first, 1) == SubDays(p, 0);
    DateLeOrdinal(SubDays(first, 1), p);
  }

  // ---------------------------------------------------------------------------
  // `format_date_for_ftp`: `date.strftime("%Y%m%d")`

  /** Two zero-padded decimal digits (`%m`, `%d`). */
  function Pad2(n: nat): (s: string)
    requires n < 100
    ensures |s| == 2 && IsDigits(s)
  {
    [Digit(n / 10), Digit(n % 10)]
  }

  /** `format_date_for_ftp(date)`.  With the C library of Linux `%Y` renders
      the year without padding, so only years 1000 to 9999 give eight digits. */
  function FormatDateForFtp(d: Date): (s: string)
    requires ValidDate(d)
    ensures IsDigits(s)
    ensures d.year >= 1000 ==> |s| == 8
  {
    var s := Decimal(d.year) + Pad2(d.month) + Pad2(d.day);
    assert d.year >= 1000 ==> |s| == 8 by {
      if d.year >= 1000 {
        DecimalLength4(d.year);
      }
    }
    s
  }

  lemma Pad2Value(n: nat)
    requires n < 100
    ensures DigitsValue(Pad2(n)) == n
  {
    TwoDigits(Pad2(n));
  }

  /** A two-digit string denotes ten times its first digit plus its second,
      and `Pad2` writes that number back as the same string. */
  lemma TwoDigits(t: string)
    requires |t| == 2 && IsDigits(t)
    ensures DigitsValue(t) == 10 * DigitValue(t[0]) + DigitValue(t[1])
    ensures DigitsValue(t) < 100 && Pad2(DigitsValue(t)) == t
  {
    assert t[..1] == [t[0]] && t[..1][..0] == [];
    assert DigitsValue(t[..1]) == DigitValue(t[0]);
    var v := DigitsValue(t);
    assert v / 10 == DigitValue(t[0]) && v % 10 == DigitValue(t[1]);
    assert Digit(DigitValue(t[0])) == t[0] && Digit(DigitValue(t[1])) == t[1];
  }

  /** For years 1000 to 9999 the directory name of a date has eight digits and
      reading it back gives the date. */
  lemma FormatParseRoundTrip(d: Date)
    requires ValidDate(d) && d.year >= 1000
    ensures |FormatDateForFtp(d)| == 8 && IsDigits(FormatDateForFtp(d))
    ensures ParseYmd(FormatDateForFtp(d)) == Some(d)
  {
    var s := FormatDateForFtp(d);
    DecimalLength4(d.year);
    assert s[..4] == Decimal(d.year);
    assert s[4..6] == Pad2(d.month);
    assert s[6..] == Pad2(d.day);
    DecimalRoundTrip(d.year);
    Pad2Value(d.month);
    Pad2Value(d.day);
  }

  /** Conversely, a name that parses and does not start with `0` is exactly the
      name `format_date_for_ftp` gives its date. */
  lemma ParseFormatRoundTrip(s: string)
    requires |s| == 8 && IsDigits(s) && s[0] != '0'
    requires ParseYmd(s).Some?
    ensures FormatDateForFtp(ParseYmd(s).value) == s
  {
    var d := ParseYmd(s).value;
    DecimalOfDigits(s[..4]);
    var m, dd := s[4..6], s[6..];
    TwoDigits(m);
    TwoDigits(dd);
    assert Pad2(d.month) == m;
    assert Pad2(d.day) == dd;
    assert s == s[..4] + m + dd;
  }

  /** `format_date_for_ftp(datetime(2025, 9, 3))` is `"20250903"`. */
  lemma FormatExample()
    ensures FormatDateForFtp(Date(2025, 9, 3)) == "20250903"
  {
    assert Decimal(2025) == "2025" by {
      assert Decimal(2) == "2";
      assert Decimal(20) == "20";
      assert Decimal(202) == "202";
    }
  }
}
