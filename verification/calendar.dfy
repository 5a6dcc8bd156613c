/** The proleptic Gregorian calendar of Python's `datetime.date`: validity,
    day arithmetic, weekdays, ordering, and the `%Y%m%d` format that names
    the archive's date directories. */
module Calendar {
  import opened Wrappers
  import opened Text

  /** A calendar date; `ValidDate` says which values `datetime.date` accepts. */
  datatype Date = Date(year: int, month: int, day: int)

  predicate IsLeap(y: int) {
    y % 4 == 0 && (y % 100 != 0 || y % 400 == 0)
  }

  function DaysInYear(y: int): int {
    if IsLeap(y) then 366 else 365
  }

  function DaysInMonth(y: int, m: int): int
    requires 1 <= m <= 12
  {
    if m == 2 then (if IsLeap(y) then 29 else 28)
    else if m == 4 || m == 6 || m == 9 || m == 11 then 30
    else 31
  }

  /** `datetime.MINYEAR <= year <= datetime.MAXYEAR` and a real day of a real
      month. */
  predicate ValidDate(d: Date) {
    1 <= d.year <= 9999 && 1 <= d.month <= 12 && 1 <= d.day <= DaysInMonth(d.year, d.month)
  }

  // ---------------------------------------------------------------------------
  // Ordinals (`date.toordinal()`: 0001-01-01 is day 1) and weekdays

  function DaysBeforeYear(y: int): int
    requires y >= 1
  {
    var p := y - 1;
    p * 365 + p / 4 - p / 100 + p / 400
  }

  function DaysBeforeMonth(y: int, m: int): (n: int)
    requires 1 <= m <= 12
    ensures n >= 0
  {
    if m == 1 then 0 else DaysBeforeMonth(y, m - 1) + DaysInMonth(y, m - 1)
  }

  function Ordinal(d: Date): int
    requires ValidDate(d)
  {
    DaysBeforeYear(d.year) + DaysBeforeMonth(d.year, d.month) + d.day
  }

  /** `date.weekday()`: Monday is 0 and Sunday is 6. */
  function Weekday(d: Date): (w: int)
    requires ValidDate(d)
    ensures 0 <= w < 7
  {
    (Ordinal(d) + 6) % 7
  }

  /** 1 September 2025 was a Monday, so `weekday()` gives 0 for it. */
  lemma WeekdayExample()
    ensures ValidDate(Date(2025, 9, 1)) && Weekday(Date(2025, 9, 1)) == 0
  {
    assert DaysBeforeYear(2025) == 739251;
    assert DaysBeforeMonth(2025, 9) == 243 by {
      assert DaysBeforeMonth(2025, 3) == 59;
      assert DaysBeforeMonth(2025, 6) == 151;
    }
    assert Ordinal(Date(2025, 9, 1)) == 739495;
  }

  const FirstDate := Date(1, 1, 1)
  const LastDate := Date(9999, 12, 31)

  lemma DaysBeforeYearStep(y: int)
    requires y >= 1
    ensures DaysBeforeYear(y + 1) == DaysBeforeYear(y) + DaysInYear(y)
  {
    var p := y - 1;
    assert y / 4 == p / 4 + (if y % 4 == 0 then 1 else 0);
    assert y / 100 == p / 100 + (if y % 100 == 0 then 1 else 0);
    assert y / 400 == p / 400 + (if y % 400 == 0 then 1 else 0);
  }

  lemma {:induction false} DaysBeforeYearMonotone(a: int, b: int)
    requires 1 <= a <= b
    ensures DaysBeforeYear(a) + (if a < b then DaysInYear(a) else 0) <= DaysBeforeYear(b)
    decreases b - a
  {
    if a < b {
      DaysBeforeYearStep(a);
      if a + 1 < b {
        DaysBeforeYearMonotone(a + 1, b);
      }
    }
  }

  lemma {:induction false} DaysBeforeMonthMonotone(y: int, a: int, b: int)
    requires 1 <= a < b <= 12
    ensures DaysBeforeMonth(y, a) + DaysInMonth(y, a) <= DaysBeforeMonth(y, b)
    decreases b - a
  {
    if a + 1 < b {
      DaysBeforeMonthMonotone(y, a + 1, b);
    }
  }

  lemma DaysBeforeMonthOfYear(y: int, m: int)
    requires 1 <= m <= 12
    ensures DaysBeforeMonth(y, m) + DaysInMonth(y, m) <= DaysInYear(y)
    ensures DaysBeforeMonth(y, 12) + 31 == DaysInYear(y)
  {
    if m < 12 {
      DaysBeforeMonthMonotone(y, m, 12);
    }
    var f := DaysInMonth(y, 2);
    assert DaysBeforeMonth(y, 3) == 31 + f;
    assert DaysBeforeMonth(y, 4) == 62 + f;
    assert DaysBeforeMonth(y, 5) == 92 + f;
    assert DaysBeforeMonth(y, 6) == 123 + f;
    assert DaysBeforeMonth(y, 7) == 153 + f;
    assert DaysBeforeMonth(y, 8) == 184 + f;
    assert DaysBeforeMonth(y, 9) == 215 + f;
    assert DaysBeforeMonth(y, 10) == 245 + f;
    assert DaysBeforeMonth(y, 11) == 276 + f;
  }

  /** The first date has ordinal 1, and every other valid date a larger one. */
  lemma OrdinalPositive(d: Date)
    requires ValidDate(d)
    ensures Ordinal(d) >= 1
    ensures Ordinal(d) == 1 <==> d == FirstDate
  {
    if d.year > 1 {
      DaysBeforeYearMonotone(1, d.year);
    }
    if d.month > 1 {
      DaysBeforeMonthMonotone(d.year, 1, d.month);
    }
  }

  // ---------------------------------------------------------------------------
  // Day arithmetic: `date - timedelta(days=n)` and `date + timedelta(days=n)`

  function PrevDay(d: Date): Date
    requires 1 <= d.month <= 12
  {
    if d.day > 1 then Date(d.year, d.month, d.day - 1)
    else if d.month > 1 then Date(d.year, d.month - 1, DaysInMonth(d.year, d.month - 1))
    else Date(d.year - 1, 12, 31)
  }

  function NextDay(d: Date): Date
    requires 1 <= d.month <= 12
  {
    if d.day < DaysInMonth(d.year, d.month) then Date(d.year, d.month, d.day + 1)
    else if d.month < 12 then Date(d.year, d.month + 1, 1)
    else Date(d.year + 1, 1, 1)
  }

  /** The day before a valid date other than the first is valid and has the
      previous ordinal. */
  lemma PrevDayOrdinal(d: Date)
    requires ValidDate(d) && d != FirstDate
    ensures ValidDate(PrevDay(d))
    ensures Ordinal(PrevDay(d)) == Ordinal(d) - 1
  {
    var p := PrevDay(d);
    if d.day > 1 {
      assert p == Date(d.year, d.month, d.day - 1);
    } else if d.month > 1 {
      assert p == Date(d.year, d.month - 1, DaysInMonth(d.year, d.month - 1));
      assert DaysBeforeMonth(d.year, d.month) == DaysBeforeMonth(d.year, d.month - 1) + DaysInMonth(d.year, d.month - 1);
    } else {
      assert d == Date(d.year, 1, 1) && d.year > 1;
      NewYearOrdinal(d.year - 1);
    }
  }

  /** The last day of a year comes just before the first day of the next. */
  lemma NewYearOrdinal(y: int)
    requires 1 <= y < 9999
    ensures ValidDate(Date(y, 12, 31)) && ValidDate(Date(y + 1, 1, 1))
    ensures Ordinal(Date(y, 12, 31)) + 1 == Ordinal(Date(y + 1, 1, 1))
  {
    DaysBeforeYearStep(y);
    DaysBeforeMonthOfYear(y, 12);
  }

  /** The day after a valid date other than the last is valid and has the next
      ordinal. */
  lemma NextDayOrdinal(d: Date)
    requires ValidDate(d) && d != LastDate
    ensures ValidDate(NextDay(d))
    ensures Ordinal(NextDay(d)) == Ordinal(d) + 1
  {
    if d.day == DaysInMonth(d.year, d.month) && d.month == 12 {
      NewYearOrdinal(d.year);
    }
  }

  lemma LastDateOrdinal()
    ensures ValidDate(LastDate) && Ordinal(LastDate) == 3652059
  {
  }

  /** `d - timedelta(days=n)`; Python raises `OverflowError` below year 1, which
      the precondition rules out. */
  function SubDays(d: Date, n: nat): (r: Date)
    requires ValidDate(d) && Ordinal(d) > n
    ensures ValidDate(r) && Ordinal(r) == Ordinal(d) - n
    decreases n
  {
    if n == 0 then d
    else
      OrdinalPositive(d);
      PrevDayOrdinal(d);
      SubDays(PrevDay(d), n - 1)
  }

  /** `d + timedelta(days=n)`, within `datetime.MAXYEAR`. */
  function AddDays(d: Date, n: nat): (r: Date)
    requires ValidDate(d) && Ordinal(d) + n <= 3652059
    ensures ValidDate(r) && Ordinal(r) == Ordinal(d) + n
    decreases n
  {
    if n == 0 then d
    else
      LastDateOrdinal();
      NextDayOrdinal(d);
      AddDays(NextDay(d), n - 1)
  }

  // ---------------------------------------------------------------------------
  // Ordering: Python compares dates field by field

  predicate DateLt(a: Date, b: Date) {
    a.year < b.year
    || (a.year == b.year && (a.month < b.month || (a.month == b.month && a.day < b.day)))
  }

  predicate DateLe(a: Date, b: Date) {
    a == b || DateLt(a, b)
  }

  lemma DateLtOrdinal(a: Date, b: Date)
    requires ValidDate(a) && ValidDate(b) && DateLt(a, b)
    ensures Ordinal(a) < Ordinal(b)
  {
    if a.year < b.year {
      DaysBeforeMonthOfYear(a.year, a.month);
      DaysBeforeYearMonotone(a.year, b.year);
    } else if a.month < b.month {
      DaysBeforeMonthMonotone(a.year, a.month, b.month);
    }
  }

  /** Field-by-field comparison of valid dates agrees with comparing their
      ordinals, so "earlier" means the same thing for both. */
  lemma DateLeOrdinal(a: Date, b: Date)
    requires ValidDate(a) && ValidDate(b)
    ensures DateLe(a, b) <==> Ordinal(a) <= Ordinal(b)
    ensures a == b <==> Ordinal(a) == Ordinal(b)
  {
    if DateLt(a, b) {
      DateLtOrdinal(a, b);
    } else if a != b {
      assert DateLt(b, a);
      DateLtOrdinal(b, a);
    }
  }

  // ---------------------------------------------------------------------------
  // The `%Y%m%d` directory-name format

  /** `datetime.strptime(s, "%Y%m%d")` applied, as the listing code does, only
      to eight-digit names.  The format's pattern takes four digits for the
      year and prefers two digits for the month (01-12) and the day (01-31);
      a shorter match leaves data unconverted and a date the calendar lacks is
      refused, both with `ValueError` (here `None`).  On eight digits this
      amounts to reading the three fields and checking the date. */
  function ParseYmd(s: string): (r: Option<Date>)
    requires |s| == 8 && IsDigits(s)
    ensures r.Some? ==> ValidDate(r.value)
  {
    var d := Date(DigitsValue(s[..4]), DigitsValue(s[4..6]), DigitsValue(s[6..]));
    if ValidDate(d) then Some(d) else None
  }
}
