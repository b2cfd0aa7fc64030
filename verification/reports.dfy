/**
 * The aggregates of `ReportController`: the receivable/payable split of the
 * owner's signed ledger total, and the daily, weekly, monthly, all-time and
 * date-range reports built from sums and counts over a window of days.
 */
module Reports {
  import opened Wrappers
  import opened Tables
  import opened Records
  import opened Sums
  import opened Calendar
  import opened Balances
  import opened Store

  /** A ledger row of the owner, counted credit-positive (the `CASE WHEN type = "credit"` sum); other rows count 0. */
  function CreditPositive(owner: Id): Row<Transaction> -> real
  {
    (t: Row<Transaction>) => if t.val.owner != owner then 0.0 else if t.val.kind == Credit then t.val.amount else -t.val.amount
  }

  function OpeningOf(owner: Id): Row<Party> -> real
  {
    (p: Row<Party>) => if p.val.owner == owner then p.val.openingBalance else 0.0
  }

  /** The owner's credit-positive ledger total plus the opening balances of the owner's parties. */
  function SignedTotal(txns: seq<Row<Transaction>>, parties: seq<Row<Party>>, owner: Id): Money
  {
    Sum(txns, CreditPositive(owner)) + Sum(parties, OpeningOf(owner))
  }

  /** `getReceivablePayable`: the positive part is receivable, the negative part payable. */
  function ReceivablePayable(total: Money): (r: (Money, Money))
    ensures r.0 >= 0.0 && r.1 >= 0.0
    ensures r.0 == 0.0 || r.1 == 0.0
    ensures r.0 - r.1 == total
    ensures r.0 > 0.0 <==> total > 0.0
    ensures r.1 > 0.0 <==> total < 0.0
  {
    var receivable := if total > 0.0 then total else 0.0;
    var low := if total < 0.0 then total else 0.0;
    (receivable, if low < 0.0 then -low else low)
  }

  /** The entry's effect on a party balance, counted credit-positive. */
  function PartyCreditPositive(partyId: Id): Row<Transaction> -> real
  {
    (t: Row<Transaction>) => if t.val.partyId != partyId then 0.0 else if t.val.kind == Credit then t.val.amount else -t.val.amount
  }

  /**
   * The report total and the party balance count the same entries with
   * opposite signs: over a party's ledger, credit-positive sum plus the
   * balance is the opening balance.
   */
  lemma {:induction false} SignsOpposite(party: Row<Party>, txns: seq<Row<Transaction>>)
    ensures Sum(txns, PartyCreditPositive(party.id)) == party.val.openingBalance - PartyBalance(party, txns)
  {
    if txns == [] {
      PartyBalanceWithoutTransactions(party);
    } else {
      var init := txns[..|txns| - 1];
      var last := txns[|txns| - 1];
      assert txns == init + [last];
      SignsOpposite(party, init);
      SumSnoc(init, last, PartyCreditPositive(party.id));
      PartyBalanceAppend(party, init, last);
    }
  }

  /** With a zero opening balance and only its own entries, the report's total is minus the party's balance. */
  lemma ZeroOpeningTotalIsMinusBalance(party: Row<Party>, txns: seq<Row<Transaction>>, owner: Id)
    requires party.val.openingBalance == 0.0 && party.val.owner == owner
    requires forall i :: 0 <= i < |txns| ==> txns[i].val.owner == owner && txns[i].val.partyId == party.id
    ensures SignedTotal(txns, [party], owner) == -PartyBalance(party, txns)
  {
    SignsOpposite(party, txns);
    forall x | x in txns ensures CreditPositive(owner)(x) == PartyCreditPositive(party.id)(x) {
      var i :| 0 <= i < |txns| && txns[i] == x;
    }
    SumCongruent(txns, CreditPositive(owner), PartyCreditPositive(party.id));
    assert [party][1..] == [];
    assert Sum([party], OpeningOf(owner)) == 0.0;
  }

  /** A day window `[from, to]`; None is all time. */
  type Window = Option<(Day, Day)>

  predicate InWindow(w: Window, d: Day)
  {
    w.None? || (w.value.0 <= d && d <= w.value.1)
  }

  function SaleIn(owner: Id, w: Window): Row<Invoice> -> real
  {
    (i: Row<Invoice>) => if i.val.owner == owner && InWindow(w, i.val.date) then i.val.totalAmount else 0.0
  }

  function ExpenseIn(owner: Id, w: Window): Row<Expense> -> real
  {
    (e: Row<Expense>) => if e.val.owner == owner && InWindow(w, e.val.date) then e.val.amount else 0.0
  }

  function KindIn(owner: Id, kind: TxnType, w: Window): Row<Transaction> -> real
  {
    (t: Row<Transaction>) => if t.val.owner == owner && t.val.kind == kind && InWindow(w, t.val.date) then t.val.amount else 0.0
  }

  function InvoiceIn(owner: Id, w: Window): Row<Invoice> -> bool
  {
    (i: Row<Invoice>) => i.val.owner == owner && InWindow(w, i.val.date)
  }

  function EntryIn(owner: Id, w: Window): Row<Transaction> -> bool
  {
    (t: Row<Transaction>) => t.val.owner == owner && InWindow(w, t.val.date)
  }

  /** `where('type', 'customer')`: parties of type `both` are not counted. */
  function CustomerOf(owner: Id): Row<Party> -> bool
  {
    (p: Row<Party>) => p.val.owner == owner && p.val.kind == Customer
  }

  function ProductOf(owner: Id): Row<Product> -> bool
  {
    (p: Row<Product>) => p.val.owner == owner
  }

  datatype Period = Daily | Weekly | Monthly | Summary | DateRange

  /** The report body (`baseReportData` filled in); `totalCredit`/`totalDebit` stay 0 except in the range report. */
  datatype Report = Report(
    period: Period, totalSales: Money, totalReceivable: Money, totalPayable: Money,
    totalTransactions: nat, totalInvoices: nat, totalCustomers: nat, totalProducts: nat,
    expenses: Money, netProfit: Money, totalCredit: Money, totalDebit: Money)

  /** The report over window w. */
  function BuildReport(db: Db, owner: Id, period: Period, w: Window): (r: Report)
    reads db
    ensures r.netProfit == r.totalSales - r.expenses
    ensures r.totalReceivable - r.totalPayable == SignedTotal(db.transactions.rows, db.parties.rows, owner)
    ensures r.totalReceivable >= 0.0 && r.totalPayable >= 0.0 && (r.totalReceivable == 0.0 || r.totalPayable == 0.0)
    ensures r.totalCredit == 0.0 && r.totalDebit == 0.0
  {
    var sales := Sum(db.invoices.rows, SaleIn(owner, w));
    var expenses := Sum(db.expenses.rows, ExpenseIn(owner, w));
    var rp := ReceivablePayable(SignedTotal(db.transactions.rows, db.parties.rows, owner));
    Report(period, sales, rp.0, rp.1,
           Count(db.transactions.rows, EntryIn(owner, w)), Count(db.invoices.rows, InvoiceIn(owner, w)),
           Count(db.parties.rows, CustomerOf(owner)), Count(db.products.rows, ProductOf(owner)),
           expenses, sales - expenses, 0.0, 0.0)
  }

  /** `daily`: the one-day window; `date` is None when missing or not a date. */
  function DailyReport(db: Db, owner: Id, date: Option<Day>): (r: Result<Report, Error>)
    reads db
    ensures r.Failure? <==> date.None?
    ensures r.Success? ==> r.value == BuildReport(db, owner, Daily, Some((date.value, date.value)))
  {
    if date.None? then Failure(ValidationFailed) else Success(BuildReport(db, owner, Daily, Some((date.value, date.value))))
  }

  /** `weekly`: the start day and the six days after it. */
  function WeeklyReport(db: Db, owner: Id, weekStart: Option<Day>): (r: Result<Report, Error>)
    reads db
    ensures r.Failure? <==> weekStart.None?
    ensures r.Success? ==> r.value == BuildReport(db, owner, Weekly, Some((weekStart.value, weekStart.value + 6)))
  {
    if weekStart.None? then Failure(ValidationFailed) else Success(BuildReport(db, owner, Weekly, Some(WeekWindow(weekStart.value))))
  }

  /** `date_format:Y-m`: a month of a year written with up to four digits. */
  predicate ValidMonth(month: Option<(int, int)>)
  {
    month.Some? && 0 <= month.value.0 <= 9999 && 1 <= month.value.1 <= 12
  }

  /** `monthly`: the first to the last day of the month. */
  function MonthlyReport(db: Db, owner: Id, month: Option<(int, int)>): (r: Result<Report, Error>)
    reads db
    ensures r.Failure? <==> !ValidMonth(month)
    ensures r.Success? ==> ValidMonth(month) && var (y, m) := month.value;
      r.value == BuildReport(db, owner, Monthly, Some((DayNumber(CivilDate(y, m, 1)), DayNumber(CivilDate(y, m, DaysInMonth(y, m))))))
  {
    if !ValidMonth(month) then Failure(ValidationFailed)
    else Success(BuildReport(db, owner, Monthly, Some(MonthWindow(month.value.0, month.value.1))))
  }

  /** `summary`: all time. */
  function SummaryReport(db: Db, owner: Id): (r: Report)
    reads db
    ensures r == BuildReport(db, owner, Summary, None)
  {
    BuildReport(db, owner, Summary, None)
  }

  /** `range`: `[start, end]`, refused when either is missing or end is before start; adds the credit and debit totals. */
  function RangeReport(db: Db, owner: Id, start: Option<Day>, end: Option<Day>): (r: Result<Report, Error>)
    reads db
    ensures r.Failure? <==> start.None? || end.None? || end.value < start.value
    ensures r.Success? ==> var w := Some((start.value, end.value));
      && r.value.totalCredit == Sum(db.transactions.rows, KindIn(owner, Credit, w))
      && r.value.totalDebit == Sum(db.transactions.rows, KindIn(owner, Debit, w))
      && r.value == BuildReport(db, owner, DateRange, w).(totalCredit := r.value.totalCredit, totalDebit := r.value.totalDebit)
  {
    if start.None? || end.None? || end.value < start.value then Failure(ValidationFailed)
    else
      var w := Some((start.value, end.value));
      Success(BuildReport(db, owner, DateRange, w).(
        totalCredit := Sum(db.transactions.rows, KindIn(owner, Credit, w)),
        totalDebit := Sum(db.transactions.rows, KindIn(owner, Debit, w))))
  }

  /** A one-day range reports what the daily report does. */
  lemma RangeOfOneDayIsDaily(db: Db, owner: Id, d: Day)
    ensures RangeReport(db, owner, Some(d), Some(d)).Success?
    ensures RangeReport(db, owner, Some(d), Some(d)).value.(period := Daily, totalCredit := 0.0, totalDebit := 0.0)
         == DailyReport(db, owner, Some(d)).value
  {
  }

  /** A seven-day range from the week start reports what the weekly report does. */
  lemma RangeOfWeekIsWeekly(db: Db, owner: Id, d: Day)
    ensures RangeReport(db, owner, Some(d), Some(d + 6)).Success?
    ensures RangeReport(db, owner, Some(d), Some(d + 6)).value.(period := Weekly, totalCredit := 0.0, totalDebit := 0.0)
         == WeeklyReport(db, owner, Some(d)).value
  {
  }

  /** A range spanning a whole month reports what the monthly report does. */
  lemma RangeOfMonthIsMonthly(db: Db, owner: Id, y: int, m: int)
    requires 0 <= y <= 9999 && 1 <= m <= 12
    ensures var w := MonthWindow(y, m);
      && RangeReport(db, owner, Some(w.0), Some(w.1)).Success?
      && RangeReport(db, owner, Some(w.0), Some(w.1)).value.(period := Monthly, totalCredit := 0.0, totalDebit := 0.0)
         == MonthlyReport(db, owner, Some((y, m))).value
  {
  }

  /**
   * When every one of the owner's entries falls in the range, credit minus
   * debit is the owner's credit-positive ledger total.
   */
  lemma RangeCoversLedger(txns: seq<Row<Transaction>>, owner: Id, start: Day, end: Day)
    requires forall x :: x in txns && x.val.owner == owner ==> start <= x.val.date <= end
    ensures var w := Some((start, end));
      Sum(txns, KindIn(owner, Credit, w)) - Sum(txns, KindIn(owner, Debit, w)) == Sum(txns, CreditPositive(owner))
  {
    var w := Some((start, end));
    SumAdd(txns, CreditPositive(owner), KindIn(owner, Debit, w), KindIn(owner, Credit, w));
  }

  /** A later entry dated inside the window raises the window's count by one and its credit or debit total by its amount. */
  lemma RangeAppend(txns: seq<Row<Transaction>>, owner: Id, w: Window, t: Row<Transaction>)
    requires t.val.owner == owner && InWindow(w, t.val.date)
    ensures Count(txns + [t], EntryIn(owner, w)) == Count(txns, EntryIn(owner, w)) + 1
    ensures Sum(txns + [t], KindIn(owner, t.val.kind, w)) == Sum(txns, KindIn(owner, t.val.kind, w)) + t.val.amount
  {
    SelectAppend(txns, [t], EntryIn(owner, w));
    assert [t][1..] == [];
    SumSnoc(txns, t, KindIn(owner, t.val.kind, w));
  }
}
