/** Calendar dates at midnight, the way pandas Timestamps are built from a
    "YYYY-MM-DD" string: proleptic Gregorian, compared by the day they
    denote. A day is numbered as Python's date.toordinal numbers it
    (0001-01-01 is day 1); pandas counts nanoseconds from 1970-01-01
    instead, which differs by a constant factor and offset and so orders
    dates the same way. */
module Calendar {

  datatype Date = Date(year: int, month: int, day: int)

  predicate IsLeapYear(y: int) {
    y % 4 == 0 && (y % 100 != 0 || y % 400 == 0)
  }

  function YearLength(y: int): int {
    if IsLeapYear(y) then 366 else 365
  }

  function DaysInMonth(y: int, m: int): (n: int)
    requires 1 <= m <= 12
    ensures 28 <= n <= 31
  {
    if m == 2 then (if IsLeapYear(y) then 29 else 28)
    else if m == 4 || m == 6 || m == 9 || m == 11 then 30
    else 31
  }

  predicate ValidDate(d: Date) {
    1 <= d.month <= 12 && 1 <= d.day <= DaysInMonth(d.year, d.month)
  }

  /** Days of year y that come before the first of month m: the lengths of
      the months before it. */
  function DaysBeforeMonth(y: int, m: int): (n: int)
    requires 1 <= m <= 12
    ensures 28 * (m - 1) <= n <= 31 * (m - 1)
  {
    if m == 1 then 0 else DaysBeforeMonth(y, m - 1) + DaysInMonth(y, m - 1)
  }

  /** Days before January 1 of year y, counted from 0001-01-01; for years
      before 1 the count is negative. */
  function DaysBeforeYear(y: int): int {
    var p := y - 1;
    365 * p + p / 4 - p / 100 + p / 400
  }

  function DayNumber(d: Date): int
    requires ValidDate(d)
  {
    DaysBeforeYear(d.year) + DaysBeforeMonth(d.year, d.month) + d.day
  }

  /** Timestamp comparison `a <= b`. */
  predicate AtOrBefore(a: Date, b: Date)
    requires ValidDate(a) && ValidDate(b)
  {
    DayNumber(a) <= DayNumber(b)
  }

  /** Calendar order: by year, then month, then day. */
  predicate LexicographicAtOrBefore(a: Date, b: Date) {
    a.year < b.year
    || (a.year == b.year && (a.month < b.month || (a.month == b.month && a.day <= b.day)))
  }

  /** Counting multiples of k up to p + 1 instead of p adds one exactly
      when p + 1 is itself a multiple. */
  lemma DivStep(p: int, k: int)
    requires k == 4 || k == 100 || k == 400
    ensures (p + 1) / k == p / k + (if (p + 1) % k == 0 then 1 else 0)
  {
  }

  /** Consecutive New Year's days are one year length apart. */
  lemma YearSpan(y: int)
    ensures DaysBeforeYear(y + 1) == DaysBeforeYear(y) + YearLength(y)
  {
    DivStep(y - 1, 4);
    DivStep(y - 1, 100);
    DivStep(y - 1, 400);
  }

  /** New Year's day moves forward by at least 365 days a year. */
  lemma {:induction false} DaysBeforeYearGrows(y1: int, y2: int)
    requires y1 <= y2
    ensures DaysBeforeYear(y1) + 365 * (y2 - y1) <= DaysBeforeYear(y2)
    decreases y2 - y1
  {
    if y1 < y2 {
      YearSpan(y1);
      DaysBeforeYearGrows(y1 + 1, y2);
    }
  }

  /** A later month of the same year starts at least 28 days later per
      month in between. */
  lemma {:induction false} DaysBeforeMonthGrows(y: int, m1: int, m2: int)
    requires 1 <= m1 <= m2 <= 12
    ensures DaysBeforeMonth(y, m1) + 28 * (m2 - m1) <= DaysBeforeMonth(y, m2)
    decreases m2
  {
    if m1 < m2 {
      DaysBeforeMonthGrows(y, m1, m2 - 1);
    }
  }

  /** December starts 31 days before the end of the year. */
  lemma DaysBeforeDecember(y: int)
    ensures DaysBeforeMonth(y, 12) + 31 == YearLength(y)
  {
    var leap := if IsLeapYear(y) then 1 else 0;
    assert DaysBeforeMonth(y, 2) == 31;
    assert DaysBeforeMonth(y, 3) == 59 + leap;
    assert DaysBeforeMonth(y, 4) == 90 + leap;
    assert DaysBeforeMonth(y, 5) == 120 + leap;
    assert DaysBeforeMonth(y, 6) == 151 + leap;
    assert DaysBeforeMonth(y, 7) == 181 + leap;
    assert DaysBeforeMonth(y, 8) == 212 + leap;
    assert DaysBeforeMonth(y, 9) == 243 + leap;
    assert DaysBeforeMonth(y, 10) == 273 + leap;
    assert DaysBeforeMonth(y, 11) == 304 + leap;
  }

  /** Every valid date falls within its own year. */
  lemma DayNumberWithinYear(d: Date)
    requires ValidDate(d)
    ensures DaysBeforeYear(d.year) < DayNumber(d) <= DaysBeforeYear(d.year) + YearLength(d.year)
  {
    DaysBeforeDecember(d.year);
    if d.month < 12 {
      assert DaysBeforeMonth(d.year, d.month + 1) == DaysBeforeMonth(d.year, d.month) + DaysInMonth(d.year, d.month);
      DaysBeforeMonthGrows(d.year, d.month + 1, 12);
    }
  }

  /** Within one year, day numbers follow month and day order. */
  lemma SameYearOrder(a: Date, b: Date)
    requires ValidDate(a) && ValidDate(b) && a.year == b.year
    ensures DayNumber(a) <= DayNumber(b)
        <==> (a.month < b.month || (a.month == b.month && a.day <= b.day))
  {
    if a.month < b.month {
      DaysBeforeMonthGrows(a.year, a.month + 1, b.month);
    } else if b.month < a.month {
      DaysBeforeMonthGrows(a.year, b.month + 1, a.month);
    }
  }

  /** Comparing timestamps is comparing dates in calendar order. */
  lemma DayNumberOrder(a: Date, b: Date)
    requires ValidDate(a) && ValidDate(b)
    ensures AtOrBefore(a, b) <==> LexicographicAtOrBefore(a, b)
  {
    if a.year == b.year {
      SameYearOrder(a, b);
    } else if a.year < b.year {
      DayNumberWithinYear(a);
      DayNumberWithinYear(b);
      YearSpan(a.year);
      DaysBeforeYearGrows(a.year + 1, b.year);
    } else {
      DayNumberWithinYear(a);
      DayNumberWithinYear(b);
      YearSpan(b.year);
      DaysBeforeYearGrows(b.year + 1, a.year);
    }
  }
}
