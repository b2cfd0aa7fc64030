/**
 * `ReportController::chart`: one point per bucket of days with the sales,
 * expenses and net profit of that bucket, oldest first. A custom range gives
 * daily buckets, or weekly ones from the Monday of the start's week with the
 * last bucket cut at the end day when the range spans more than 14 days.
 * Otherwise a preset gives the last `days` days (at most 31), `weeks` weeks
 * (at most 12) or `months` months (at most 24).
 */
module Charts {
  import opened Wrappers
  import opened Tables
  import opened Records
  import opened Sums
  import opened Calendar
  import opened Reports
  import opened Store

  /** One point of the chart; its label and `period` text are renderings of `from`. */
  datatype ChartItem = ChartItem(from: Day, to: Day, totalSales: Money, expenses: Money, netProfit: Money)

  function Min(a: int, b: int): int { if a <= b then a else b }

  /** The point for the bucket `[from, to]`. */
  function Bucket(invoices: seq<Row<Invoice>>, expenses: seq<Row<Expense>>, owner: Id, from: Day, to: Day): ChartItem
  {
    var sales := Sum(invoices, SaleIn(owner, Some((from, to))));
    var spent := Sum(expenses, ExpenseIn(owner, Some((from, to))));
    ChartItem(from, to, sales, spent, sales - spent)
  }

  /**
   * A point's figures are those of the range report over its bucket: the
   * invoices' totals and the expenses dated in it, and their difference.
   */
  lemma BucketIsRangeReport(db: Db, owner: Id, from: Day, to: Day)
    ensures var c := Bucket(db.invoices.rows, db.expenses.rows, owner, from, to);
      var r := BuildReport(db, owner, DateRange, Some((from, to)));
      && c.from == from && c.to == to
      && c.totalSales == r.totalSales && c.expenses == r.expenses && c.netProfit == r.netProfit
  {
  }

  /** The number of weekly buckets from Monday m up to end. */
  function WeekCount(m: Day, end: Day): nat
    requires m <= end
  {
    (end - m) / 7 + 1
  }

  /** Custom range, daily: one bucket per day from start to end; none when end is before start. */
  method DailyRange(invoices: seq<Row<Invoice>>, expenses: seq<Row<Expense>>, owner: Id, start: Day, end: Day)
    returns (items: seq<ChartItem>)
    ensures |items| == if end < start then 0 else end - start + 1
    ensures forall k :: 0 <= k < |items| ==> items[k] == Bucket(invoices, expenses, owner, start + k, start + k)
  {
    items := [];
    var current := start;
    while current <= end
      invariant current == start + |items|
      invariant end < start ==> items == []
      invariant start <= end ==> current <= end + 1
      invariant forall k :: 0 <= k < |items| ==> items[k] == Bucket(invoices, expenses, owner, start + k, start + k)
      decreases end - current
    {
      items := items + [Bucket(invoices, expenses, owner, current, current)];
      current := current + 1;
    }
  }

  /** The Monday k weeks after the Monday `monday` (before it when k is negative). */
  function WeekStart(monday: Day, k: int): Day
  {
    monday + 7 * k
  }

  /**
   * The first `count` weekly buckets of a custom range from the Monday m:
   * bucket k starts k weeks after m and ends six days later, or at end if
   * that comes first.
   */
  function RangeWeeks(invoices: seq<Row<Invoice>>, expenses: seq<Row<Expense>>, owner: Id, m: Day, end: Day, count: nat)
    : (r: seq<ChartItem>)
    ensures |r| == count
    ensures forall k :: 0 <= k < count ==> var ws := WeekStart(m, k);
      r[k] == Bucket(invoices, expenses, owner, ws, Min(ws + 6, end))
  {
    if count == 0 then []
    else
      var ws := WeekStart(m, count - 1);
      RangeWeeks(invoices, expenses, owner, m, end, count - 1) + [Bucket(invoices, expenses, owner, ws, Min(ws + 6, end))]
  }

  /** Custom range, weekly: buckets of seven days from the Monday m of start's week, the last one cut at end. */
  method WeeklyRange(invoices: seq<Row<Invoice>>, expenses: seq<Row<Expense>>, owner: Id, start: Day, end: Day)
    returns (items: seq<ChartItem>)
    requires start <= end
    ensures var m := MondayOf(start);
      && 1 <= |items| && WeekStart(m, |items| - 1) <= end < WeekStart(m, |items|)
      && items == RangeWeeks(invoices, expenses, owner, m, end, |items|)
  {
    var m := MondayOf(start);
    items := [];
    var current := m;
    while current <= end
      invariant current == WeekStart(m, |items|)
      invariant |items| == 0 || WeekStart(m, |items| - 1) <= end
      invariant items == RangeWeeks(invoices, expenses, owner, m, end, |items|)
      decreases end - current
    {
      items := items + [Bucket(invoices, expenses, owner, current, Min(current + 6, end))];
      current := current + 7;
    }
  }

  /** c weeks from Monday m reach end exactly when end falls in the c-th of them. */
  lemma WeekCountOf(m: Day, end: Day, c: nat)
    requires m <= end && 1 <= c && m + 7 * (c - 1) <= end < m + 7 * c
    ensures WeekCount(m, end) == c
  {
    var q := end - m;
    assert q / 7 == c - 1 by {
      assert 7 * (c - 1) <= q < 7 * (c - 1) + 7;
    }
  }

  /**
   * The weekly buckets cover the days from the Monday of start's week to
   * end, back to back: the first starts on that Monday (possibly before
   * start), each starts the day after the previous one ends, every one but
   * the last is a full week, and the last ends on end.
   */
  lemma WeeklyBucketsTile(start: Day, end: Day, k: nat)
    requires start <= end
    ensures var m := MondayOf(start); var n := WeekCount(m, end);
      && m <= start && Weekday(m) == 0
      && m + 7 * (n - 1) <= end <= m + 7 * (n - 1) + 6
      && Min(m + 7 * (n - 1) + 6, end) == end
      && (k + 1 < n ==> Min(m + 7 * k + 6, end) == m + 7 * k + 6 && Min(m + 7 * k + 6, end) + 1 == m + 7 * (k + 1))
  {
  }

  /** The custom-range chart: daily buckets for a span of at most 14 days, weekly ones beyond. */
  predicate RangeBuckets(db: Db, owner: Id, start: Day, end: Day, items: seq<ChartItem>)
    reads db
  {
    && (end - start <= 14 ==>
      && |items| == (if end < start then 0 else end - start + 1)
      && forall k :: 0 <= k < |items| ==> items[k] == Bucket(db.invoices.rows, db.expenses.rows, owner, start + k, start + k))
    && (end - start > 14 ==> var m := MondayOf(start);
      && 1 <= |items| && WeekStart(m, |items| - 1) <= end < WeekStart(m, |items|)
      && items == RangeWeeks(db.invoices.rows, db.expenses.rows, owner, m, end, |items|))
  }

  method RangeChart(db: Db, owner: Id, start: Day, end: Day) returns (items: seq<ChartItem>)
    ensures RangeBuckets(db, owner, start, end, items)
  {
    if end - start > 14 {
      items := WeeklyRange(db.invoices.rows, db.expenses.rows, owner, start, end);
    } else {
      items := DailyRange(db.invoices.rows, db.expenses.rows, owner, start, end);
    }
  }

  /** The first `count` points of an n-day chart: point k is the day n - 1 - k days before today. */
  function DaySeries(invoices: seq<Row<Invoice>>, expenses: seq<Row<Expense>>, owner: Id, today: Day, n: nat, count: nat)
    : (r: seq<ChartItem>)
    requires count <= n
    ensures |r| == count
    ensures forall k :: 0 <= k < count ==> var d := today - (n - 1 - k);
      r[k] == Bucket(invoices, expenses, owner, d, d)
  {
    if count == 0 then []
    else
      var d := today - (n - count);
      DaySeries(invoices, expenses, owner, today, n, count - 1) + [Bucket(invoices, expenses, owner, d, d)]
  }

  /** Preset `daily`: the last n days up to today, oldest first. */
  method LastDays(invoices: seq<Row<Invoice>>, expenses: seq<Row<Expense>>, owner: Id, today: Day, n: nat)
    returns (items: seq<ChartItem>)
    ensures items == DaySeries(invoices, expenses, owner, today, n, n)
  {
    items := [];
    var i := n - 1;
    while i >= 0
      invariant -1 <= i <= n - 1
      invariant items == DaySeries(invoices, expenses, owner, today, n, n - 1 - i)
    {
      items := items + [Bucket(invoices, expenses, owner, today - i, today - i)];
      i := i - 1;
    }
  }

  /**
   * The first `count` points of an n-week chart ending in the week that starts
   * on `monday`: point k is the Monday-to-Sunday week n - 1 - k weeks before it.
   */
  function WeekSeries(invoices: seq<Row<Invoice>>, expenses: seq<Row<Expense>>, owner: Id, monday: Day, n: nat, count: nat)
    : (r: seq<ChartItem>)
    requires count <= n
    ensures |r| == count
    ensures forall k :: 0 <= k < count ==> var ws := monday - 7 * (n - 1 - k);
      r[k] == Bucket(invoices, expenses, owner, ws, ws + 6)
  {
    if count == 0 then []
    else
      var ws := WeekStart(monday, -(n - count));
      WeekSeries(invoices, expenses, owner, monday, n, count - 1) + [Bucket(invoices, expenses, owner, ws, WeekWindow(ws).1)]
  }

  /** Preset `weekly`: the last n weeks, Monday to Sunday, the current week last. */
  method LastWeeks(invoices: seq<Row<Invoice>>, expenses: seq<Row<Expense>>, owner: Id, today: Day, n: nat)
    returns (items: seq<ChartItem>)
    ensures items == WeekSeries(invoices, expenses, owner, MondayOf(today), n, n)
  {
    var monday := MondayOf(today);
    items := [];
    var i := n - 1;
    while i >= 0
      invariant -1 <= i <= n - 1
      invariant items == WeekSeries(invoices, expenses, owner, monday, n, n - 1 - i)
    {
      var ws := WeekStart(monday, -i);
      var we := WeekWindow(ws).1;
      items := items + [Bucket(invoices, expenses, owner, ws, we)];
      i := i - 1;
    }
  }

  /** The month k months before month m of year y, as its window of days. */
  function MonthBack(y: int, m: int, k: int): (w: (Day, Day))
    requires 1 <= m <= 12
  {
    var ym := ShiftMonth(y, m, -k);
    MonthWindow(ym.0, ym.1)
  }

  /**
   * The first `count` points of an n-month chart: point k is the bucket of
   * the month n - 1 - k months before month m of year y.
   */
  function MonthSeries(invoices: seq<Row<Invoice>>, expenses: seq<Row<Expense>>, owner: Id, y: int, m: int, n: nat, count: nat)
    : (r: seq<ChartItem>)
    requires 1 <= m <= 12 && count <= n
    ensures |r| == count
    ensures forall k :: 0 <= k < count ==> var w := MonthBack(y, m, n - 1 - k);
      r[k] == Bucket(invoices, expenses, owner, w.0, w.1)
  {
    if count == 0 then []
    else
      var w := MonthBack(y, m, n - count);
      MonthSeries(invoices, expenses, owner, y, m, n, count - 1) + [Bucket(invoices, expenses, owner, w.0, w.1)]
  }

  /** Preset `monthly`: the last n calendar months, the current month last. */
  method LastMonths(invoices: seq<Row<Invoice>>, expenses: seq<Row<Expense>>, owner: Id, today: CivilDate, n: nat)
    returns (items: seq<ChartItem>)
    requires 1 <= today.month <= 12
    ensures items == MonthSeries(invoices, expenses, owner, today.year, today.month, n, n)
  {
    items := [];
    var i := n - 1;
    while i >= 0
      invariant -1 <= i <= n - 1
      invariant items == MonthSeries(invoices, expenses, owner, today.year, today.month, n, n - 1 - i)
    {
      var w := MonthBack(today.year, today.month, i);
      items := items + [Bucket(invoices, expenses, owner, w.0, w.1)];
      i := i - 1;
    }
  }

  /** The query string of `chart`; a count that is not numeric arrives as 0. */
  datatype ChartQuery = ChartQuery(
    startDate: Option<Day>, endDate: Option<Day>, period: Option<string>,
    months: Option<int>, days: Option<int>, weeks: Option<int>)

  /** Which preset a query without a custom range gets: an unknown period or a non-positive count falls back to monthly. */
  datatype Preset = DaysPreset(n: nat) | WeeksPreset(n: nat) | MonthsPreset(n: nat)

  function ChoosePreset(q: ChartQuery): (p: Preset)
    ensures p.DaysPreset? ==> 1 <= p.n <= 31
    ensures p.WeeksPreset? ==> 1 <= p.n <= 12
    ensures p.MonthsPreset? ==> p.n <= 24
    ensures p.DaysPreset? <==> q.period == Some("daily") && q.days.GetOr(7) > 0
    ensures p.WeeksPreset? <==> q.period == Some("weekly") && q.weeks.GetOr(4) > 0
    ensures p.DaysPreset? ==> p.n == Min(q.days.GetOr(7), 31)
    ensures p.WeeksPreset? ==> p.n == Min(q.weeks.GetOr(4), 12)
    ensures p.MonthsPreset? ==> p.n == if q.months.GetOr(6) <= 0 then 0 else Min(q.months.GetOr(6), 24)
  {
    var period := q.period.GetOr("monthly");
    var days := q.days.GetOr(7);
    var weeks := q.weeks.GetOr(4);
    var months := q.months.GetOr(6);
    if period == "daily" && days > 0 then DaysPreset(Min(days, 31))
    else if period == "weekly" && weeks > 0 then WeeksPreset(Min(weeks, 12))
    else MonthsPreset(if months <= 0 then 0 else Min(months, 24))
  }

  /** A query without parameters charts the last six months. */
  lemma DefaultIsSixMonths()
    ensures ChoosePreset(ChartQuery(None, None, None, None, None, None)) == MonthsPreset(6)
  {
  }

  /** The buckets of a preset, oldest first, the last one holding today. */
  predicate PresetBuckets(db: Db, owner: Id, p: Preset, today: CivilDate, items: seq<ChartItem>)
    requires ValidDate(today)
    reads db
  {
    match p
    case DaysPreset(n) =>
      items == DaySeries(db.invoices.rows, db.expenses.rows, owner, DayNumber(today), n, n)
    case WeeksPreset(n) =>
      items == WeekSeries(db.invoices.rows, db.expenses.rows, owner, MondayOf(DayNumber(today)), n, n)
    case MonthsPreset(n) =>
      items == MonthSeries(db.invoices.rows, db.expenses.rows, owner, today.year, today.month, n, n)
  }

  method PresetChart(db: Db, owner: Id, p: Preset, today: CivilDate) returns (items: seq<ChartItem>)
    requires ValidDate(today)
    ensures PresetBuckets(db, owner, p, today, items)
  {
    match p
    case DaysPreset(n) =>
      items := LastDays(db.invoices.rows, db.expenses.rows, owner, DayNumber(today), n);
    case WeeksPreset(n) =>
      items := LastWeeks(db.invoices.rows, db.expenses.rows, owner, DayNumber(today), n);
    case MonthsPreset(n) =>
      items := LastMonths(db.invoices.rows, db.expenses.rows, owner, today, n);
  }

  /** `chart`: a custom range when both dates are given, else the preset. */
  method Chart(db: Db, owner: Id, q: ChartQuery, today: CivilDate) returns (items: seq<ChartItem>)
    requires ValidDate(today)
    ensures q.startDate.Some? && q.endDate.Some? ==> RangeBuckets(db, owner, q.startDate.value, q.endDate.value, items)
    ensures !(q.startDate.Some? && q.endDate.Some?) ==> PresetBuckets(db, owner, ChoosePreset(q), today, items)
  {
    if q.startDate.Some? && q.endDate.Some? {
      items := RangeChart(db, owner, q.startDate.value, q.endDate.value);
    } else {
      items := PresetChart(db, owner, ChoosePreset(q), today);
    }
  }

  /** The monthly preset's months are consecutive: each window starts the day after the previous one ends. */
  lemma MonthsConsecutive(y: int, m: int, k: nat)
    requires 1 <= m <= 12 && k >= 1
    ensures MonthBack(y, m, k).1 + 1 == MonthBack(y, m, k - 1).0
  {
    var a := ShiftMonth(y, m, -(k as int));
    var b := ShiftMonth(y, m, -(k as int - 1));
    var c := ShiftMonth(a.0, a.1, 1);
    MonthWindowsAdjacent(a.0, a.1);
    assert c.0 * 12 + c.1 == b.0 * 12 + b.1;
    SameMonth(c, b);
  }

  /**
   * The preset daily and weekly points are consecutive too: each starts the
   * day after the previous one ends, and the last one holds today.
   */
  lemma PresetBucketsEndToday(invoices: seq<Row<Invoice>>, expenses: seq<Row<Expense>>, owner: Id, today: Day, n: nat)
    requires n >= 1
    ensures var days := DaySeries(invoices, expenses, owner, today, n, n);
      && (forall k :: 1 <= k < n ==> days[k - 1].to + 1 == days[k].from)
      && days[n - 1].from == today == days[n - 1].to
    ensures var weeks := WeekSeries(invoices, expenses, owner, MondayOf(today), n, n);
      && (forall k :: 1 <= k < n ==> weeks[k - 1].to + 1 == weeks[k].from)
      && weeks[n - 1].from <= today <= weeks[n - 1].to
  {
  }
}
