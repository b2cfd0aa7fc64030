/**
 * Dates as day numbers: day 0 is 0000-01-01 of the proleptic Gregorian
 * calendar (a Saturday). Windows are inclusive pairs of day numbers, as
 * `whereBetween` reads them.
 */
module Calendar {

  datatype CivilDate = CivilDate(year: int, month: int, day: int)

  predicate IsLeapYear(y: int)
  {
    y % 4 == 0 && (y % 100 != 0 || y % 400 == 0)
  }

  function DaysInYear(y: int): int
  {
    if IsLeapYear(y) then 366 else 365
  }

  /** `date('t')`: the number of days of month m of year y. */
  function DaysInMonth(y: int, m: int): (n: int)
    requires 1 <= m <= 12
    ensures 28 <= n <= 31
    ensures m == 2 ==> (n == 29 <==> IsLeapYear(y))
  {
    if m == 2 then (if IsLeapYear(y) then 29 else 28)
    else if m == 4 || m == 6 || m == 9 || m == 11 then 30
    else 31
  }

  predicate ValidDate(d: CivilDate)
  {
    1 <= d.month <= 12 && 1 <= d.day <= DaysInMonth(d.year, d.month)
  }

  /** Day number of January 1st of year y. */
  function YearStart(y: int): int
    decreases if y < 0 then -y else y
  {
    if y == 0 then 0
    else if y > 0 then YearStart(y - 1) + DaysInYear(y - 1)
    else YearStart(y + 1) - DaysInYear(y)
  }

  lemma YearStartNext(y: int)
    ensures YearStart(y + 1) == YearStart(y) + DaysInYear(y)
  {
  }

  /** Days of year y before the first of month m (m == 13: the whole year). */
  function MonthOffset(y: int, m: int): int
    requires 1 <= m <= 13
  {
    if m == 1 then 0 else MonthOffset(y, m - 1) + DaysInMonth(y, m - 1)
  }

  lemma MonthOffsetWholeYear(y: int)
    ensures MonthOffset(y, 13) == DaysInYear(y)
  {
    assert MonthOffset(y, 2) == 31;
    assert MonthOffset(y, 3) == 31 + DaysInMonth(y, 2);
    assert MonthOffset(y, 4) == 62 + DaysInMonth(y, 2);
    assert MonthOffset(y, 5) == 92 + DaysInMonth(y, 2);
    assert MonthOffset(y, 6) == 123 + DaysInMonth(y, 2);
    assert MonthOffset(y, 7) == 153 + DaysInMonth(y, 2);
    assert MonthOffset(y, 8) == 184 + DaysInMonth(y, 2);
    assert MonthOffset(y, 9) == 215 + DaysInMonth(y, 2);
    assert MonthOffset(y, 10) == 245 + DaysInMonth(y, 2);
    assert MonthOffset(y, 11) == 276 + DaysInMonth(y, 2);
    assert MonthOffset(y, 12) == 306 + DaysInMonth(y, 2);
  }

  function DayNumber(d: CivilDate): int
    requires ValidDate(d)
  {
    YearStart(d.year) + MonthOffset(d.year, d.month) + d.day - 1
  }

  /** The calendar month the k-th month after (y, m) falls in; k may be negative. */
  function ShiftMonth(y: int, m: int, k: int): (r: (int, int))
    requires 1 <= m <= 12
    ensures 1 <= r.1 <= 12
    ensures r.0 * 12 + r.1 == y * 12 + m + k
  {
    var t := y * 12 + (m - 1) + k;
    (t / 12, t % 12 + 1)
  }

  /** `[Y-m-01, date('Y-m-t')]`: the first and last day of month m of year y. */
  function MonthWindow(y: int, m: int): (w: (int, int))
    requires 1 <= m <= 12
    ensures w.0 == DayNumber(CivilDate(y, m, 1))
    ensures w.1 == DayNumber(CivilDate(y, m, DaysInMonth(y, m)))
    ensures w.1 - w.0 + 1 == DaysInMonth(y, m)
  {
    var first := DayNumber(CivilDate(y, m, 1));
    (first, first + DaysInMonth(y, m) - 1)
  }

  /** Every day of the month lies in its window ... */
  lemma DayInMonthWindow(d: CivilDate)
    requires ValidDate(d)
    ensures MonthWindow(d.year, d.month).0 <= DayNumber(d) <= MonthWindow(d.year, d.month).1
  {
  }

  /** ... and every day of the window is a day of that month. */
  lemma MonthWindowDay(y: int, m: int, n: int)
    requires 1 <= m <= 12
    requires MonthWindow(y, m).0 <= n <= MonthWindow(y, m).1
    ensures var d := CivilDate(y, m, n - MonthWindow(y, m).0 + 1); ValidDate(d) && DayNumber(d) == n
  {
  }

  /** The window of a month ends the day before the window of the next month starts. */
  lemma {:induction false} MonthWindowsAdjacent(y: int, m: int)
    requires 1 <= m <= 12
    ensures var next := ShiftMonth(y, m, 1);
      MonthWindow(y, m).1 + 1 == MonthWindow(next.0, next.1).0
  {
    var next := ShiftMonth(y, m, 1);
    if m == 12 {
      SameMonth(next, (y + 1, 1));
      MonthOffsetWholeYear(y);
      YearStartNext(y);
      assert MonthOffset(y, 13) == MonthOffset(y, 12) + DaysInMonth(y, 12);
    } else {
      SameMonth(next, (y, m + 1));
      assert MonthOffset(y, m + 1) == MonthOffset(y, m) + DaysInMonth(y, m);
    }
  }

  /** A (year, month) pair is determined by its month count y * 12 + m. */
  lemma SameMonth(a: (int, int), b: (int, int))
    requires 1 <= a.1 <= 12 && 1 <= b.1 <= 12
    requires a.0 * 12 + a.1 == b.0 * 12 + b.1
    ensures a == b
  {
    assert (a.0 - b.0) * 12 == b.1 - a.1;
  }

  /** The weekly report window: the start day and the six days after it. */
  function WeekWindow(start: int): (w: (int, int))
    ensures w.0 == start && w.1 - w.0 == 6
  {
    (start, start + 6)
  }

  /** ISO weekday numbering: 0 for Monday up to 6 for Sunday (day 2 is a Monday). */
  function Weekday(d: int): (w: int)
    ensures 0 <= w < 7
  {
    (d - 2) % 7
  }

  /** PHP's `monday this week`: the Monday of the ISO week (Monday to Sunday) holding d. */
  function MondayOf(d: int): (r: int)
    ensures Weekday(r) == 0
    ensures r <= d < r + 7
  {
    d - Weekday(d)
  }

  /** The epoch agrees with the calendar: 0001-01-01 was a Monday. */
  lemma FirstOfYearOneIsMonday()
    ensures ValidDate(CivilDate(1, 1, 1)) && Weekday(DayNumber(CivilDate(1, 1, 1))) == 0
  {
    assert YearStart(1) == 366;
  }

  /** `Ymd` rendering needs a four-digit year. */
  predicate FourDigitYear(d: CivilDate)
  {
    1000 <= d.year <= 9999
  }
}
