/**
 * `DashboardController::index`: the business figures (receivable/payable,
 * today's sales and payments, recent ledger entries, low-stock products,
 * outstanding invoices) and the personal ones (expenses and purchases,
 * what the caller owes and is owed across active contacts, recent entries).
 */
module Dashboard {
  import opened Wrappers
  import opened Tables
  import opened Records
  import opened Sums
  import Sorting
  import opened Queries
  import opened Calendar
  import opened Balances
  import opened Reports
  import opened Store

  import Transactions
  import PersonalTransactions

  function InvoiceDate(i: Invoice): Day { i.date }
  function ExpenseDate(e: Expense): Day { e.date }

  function OwnExpense(owner: Id): Row<Expense> -> bool { (e: Row<Expense>) => e.val.owner == owner }

  /** `whereRaw('stock_quantity <= low_stock_threshold')`: at the threshold counts as low. */
  predicate LowStock(p: Product)
  {
    p.stock <= p.lowStockThreshold
  }

  function LowStockOf(owner: Id): Row<Product> -> bool
  {
    (p: Row<Product>) => p.val.owner == owner && LowStock(p.val)
  }

  /** `where('payment_status', '!=', 'paid')`. */
  function UnpaidOf(owner: Id): Row<Invoice> -> bool
  {
    (i: Row<Invoice>) => i.val.owner == owner && i.val.status != Paid
  }

  function ActiveContactOf(owner: Id): Row<PersonalContact> -> bool
  {
    (c: Row<PersonalContact>) => c.val.owner == owner && c.val.status == Active
  }

  function PaymentToday(owner: Id, today: Day): Row<Payment> -> real
  {
    (p: Row<Payment>) => if p.val.owner == owner && p.val.date == today then p.val.amount else 0.0
  }

  function PurchaseIn(owner: Id, w: (Day, Day)): Row<Purchase> -> real
  {
    (p: Row<Purchase>) => if p.val.owner == owner && w.0 <= p.val.date <= w.1 then p.val.amount else 0.0
  }

  /** The owner's personal entries of that kind, for every contact, active or not. */
  function EntryAmount(owner: Id, kind: PersonalTxnType): Row<PersonalTransaction> -> real
  {
    (t: Row<PersonalTransaction>) => if t.val.owner == owner && t.val.kind == kind then t.val.amount else 0.0
  }

  /** Expenses by date, newest first, later-created first on the same date. */
  function NewestExpenseFirst(): (Row<Expense>, Row<Expense>) -> bool
  {
    NewestFirst(ExpenseDate)
  }

  /** `orderBy(...)->limit(n)` over the rows of s passing p. */
  function Recent<T(!new)>(s: seq<Row<T>>, p: Row<T> -> bool, before: (Row<T>, Row<T>) -> bool, n: nat): (r: seq<Row<T>>)
    requires Sorting.IsTotalPreorder(before)
    ensures |r| <= n
    ensures forall x :: x in r ==> x in s && p(x)
  {
    var r := Take(Sorting.Sort(before, Select(s, p)), n);
    TopOf(before, Select(s, p), n);
    assert forall x :: x in r ==> x in multiset(Select(s, p));
    r
  }

  /** One contact's part in the loop: its balance added to "you owe" when negative, else to "they owe". */
  function YouOweOf(ptxns: seq<Row<PersonalTransaction>>): Row<PersonalContact> -> real
  {
    (c: Row<PersonalContact>) => YouOwe(c, ptxns)
  }

  function TheyOweOf(ptxns: seq<Row<PersonalTransaction>>): Row<PersonalContact> -> real
  {
    (c: Row<PersonalContact>) => TheyOwe(c, ptxns)
  }

  function BalanceOf(ptxns: seq<Row<PersonalTransaction>>): Row<PersonalContact> -> real
  {
    (c: Row<PersonalContact>) => ContactBalance(c, ptxns)
  }

  /**
   * The `foreach` over the active contacts: "you owe" and "they owe" are the
   * sums of the contacts' own `you_owe` and `they_owe`, both not negative,
   * and their difference is the sum of the balances.
   */
  method OweTotals(contacts: seq<Row<PersonalContact>>, ptxns: seq<Row<PersonalTransaction>>) returns (youOwe: Money, theyOwe: Money)
    ensures youOwe == Sum(contacts, YouOweOf(ptxns)) && theyOwe == Sum(contacts, TheyOweOf(ptxns))
    ensures youOwe >= 0.0 && theyOwe >= 0.0
    ensures theyOwe - youOwe == Sum(contacts, BalanceOf(ptxns))
  {
    youOwe, theyOwe := 0.0, 0.0;
    var i := 0;
    while i < |contacts|
      invariant 0 <= i <= |contacts|
      invariant youOwe == Sum(contacts[..i], YouOweOf(ptxns)) && theyOwe == Sum(contacts[..i], TheyOweOf(ptxns))
      invariant youOwe >= 0.0 && theyOwe >= 0.0
      invariant theyOwe - youOwe == Sum(contacts[..i], BalanceOf(ptxns))
    {
      var c := contacts[i];
      var balance := ContactBalance(c, ptxns);
      ContactOweSplit(c, ptxns);
      assert contacts[..i + 1] == contacts[..i] + [c];
      SumSnoc(contacts[..i], c, YouOweOf(ptxns));
      SumSnoc(contacts[..i], c, TheyOweOf(ptxns));
      SumSnoc(contacts[..i], c, BalanceOf(ptxns));
      if balance < 0.0 {
        youOwe := youOwe + (-balance);
      } else {
        theyOwe := theyOwe + balance;
      }
      i := i + 1;
    }
    assert contacts[..i] == contacts;
  }

  datatype DashboardData = DashboardData(
    totalReceivable: Money, totalPayable: Money, todaySales: Money, todayPayments: Money,
    recentTransactions: seq<Row<Transaction>>, lowStockProducts: seq<Row<Product>>,
    outstandingInvoices: seq<Row<Invoice>>,
    todayPersonalExpenses: Money, monthPersonalExpenses: Money, monthPersonalPurchases: Money,
    personalYouOwe: Money, personalTheyOwe: Money, totalPersonalGiven: Money, totalPersonalReceived: Money,
    recentPersonalTransactions: seq<Row<PersonalTransaction>>, recentPersonalExpenses: seq<Row<Expense>>)

  /** `index`, for the caller on the day `today`. */
  method Index(db: Db, owner: Id, today: CivilDate) returns (d: DashboardData)
    requires ValidDate(today)
    ensures var rp := ReceivablePayable(SignedTotal(db.transactions.rows, db.parties.rows, owner));
      d.totalReceivable == rp.0 && d.totalPayable == rp.1
    ensures d.todaySales == Sum(db.invoices.rows, SaleIn(owner, Some((DayNumber(today), DayNumber(today)))))
    ensures d.todayPayments == Sum(db.payments.rows, PaymentToday(owner, DayNumber(today)))
    ensures Sorting.SortedBy(NewestFirst(Transactions.TxnDate), d.recentTransactions) && |d.recentTransactions| <= 10
    ensures d.recentTransactions == Take(Sorting.Sort(NewestFirst(Transactions.TxnDate), Select(db.transactions.rows, Transactions.OwnedBy(owner))), 10)
    ensures d.lowStockProducts == Select(db.products.rows, LowStockOf(owner))
    ensures d.outstandingInvoices == Take(Sorting.Sort(DateDesc(InvoiceDate), Select(db.invoices.rows, UnpaidOf(owner))), 5)
    ensures d.todayPersonalExpenses == Sum(db.expenses.rows, ExpenseIn(owner, Some((DayNumber(today), DayNumber(today)))))
    ensures d.monthPersonalExpenses == Sum(db.expenses.rows, ExpenseIn(owner, Some(MonthWindow(today.year, today.month))))
    ensures d.monthPersonalPurchases == Sum(db.purchases.rows, PurchaseIn(owner, MonthWindow(today.year, today.month)))
    ensures var active := Select(db.contacts.rows, ActiveContactOf(owner));
      && d.personalYouOwe == Sum(active, YouOweOf(db.personalTransactions.rows))
      && d.personalTheyOwe == Sum(active, TheyOweOf(db.personalTransactions.rows))
      && d.personalTheyOwe - d.personalYouOwe == Sum(active, BalanceOf(db.personalTransactions.rows))
    ensures d.personalYouOwe >= 0.0 && d.personalTheyOwe >= 0.0
    ensures d.totalPersonalGiven == Sum(db.personalTransactions.rows, EntryAmount(owner, Given))
    ensures d.totalPersonalReceived == Sum(db.personalTransactions.rows, EntryAmount(owner, Received))
    ensures d.recentPersonalTransactions == Take(Sorting.Sort(NewestFirst(PersonalTransactions.EntryDate), Select(db.personalTransactions.rows, PersonalTransactions.OwnedBy(owner))), 5)
    ensures d.recentPersonalExpenses == Take(Sorting.Sort(NewestExpenseFirst(), Select(db.expenses.rows, OwnExpense(owner))), 5)
  {
    var day := DayNumber(today);
    var month := MonthWindow(today.year, today.month);
    var rp := ReceivablePayable(SignedTotal(db.transactions.rows, db.parties.rows, owner));
    NewestFirstIsTotalPreorder(Transactions.TxnDate);
    NewestFirstIsTotalPreorder(PersonalTransactions.EntryDate);
    NewestFirstIsTotalPreorder(ExpenseDate);
    DateDescIsTotalPreorder(InvoiceDate);
    var active := Select(db.contacts.rows, ActiveContactOf(owner));
    var youOwe, theyOwe := OweTotals(active, db.personalTransactions.rows);
    d := DashboardData(
      rp.0, rp.1,
      Sum(db.invoices.rows, SaleIn(owner, Some((day, day)))),
      Sum(db.payments.rows, PaymentToday(owner, day)),
      Recent(db.transactions.rows, Transactions.OwnedBy(owner), NewestFirst(Transactions.TxnDate), 10),
      Select(db.products.rows, LowStockOf(owner)),
      Recent(db.invoices.rows, UnpaidOf(owner), DateDesc(InvoiceDate), 5),
      Sum(db.expenses.rows, ExpenseIn(owner, Some((day, day)))),
      Sum(db.expenses.rows, ExpenseIn(owner, Some(month))),
      Sum(db.purchases.rows, PurchaseIn(owner, month)),
      youOwe, theyOwe,
      Sum(db.personalTransactions.rows, EntryAmount(owner, Given)),
      Sum(db.personalTransactions.rows, EntryAmount(owner, Received)),
      Recent(db.personalTransactions.rows, PersonalTransactions.OwnedBy(owner), NewestFirst(PersonalTransactions.EntryDate), 5),
      Recent(db.expenses.rows, OwnExpense(owner), NewestExpenseFirst(), 5));
    TopOf(NewestFirst(Transactions.TxnDate), Select(db.transactions.rows, Transactions.OwnedBy(owner)), 10);
  }

  /**
   * The five outstanding invoices are the newest: each is the caller's and
   * not `paid`, and every unpaid invoice of the caller left out is dated no
   * later than any of them.
   */
  lemma OutstandingAreNewest(invoices: seq<Row<Invoice>>, owner: Id, r: seq<Row<Invoice>>)
    requires r == Take(Sorting.Sort(DateDesc(InvoiceDate), Select(invoices, UnpaidOf(owner))), 5)
    ensures |r| <= 5
    ensures forall x :: x in r ==> x in invoices && x.val.owner == owner && x.val.status != Paid
    ensures forall i, x :: 0 <= i < |r| && x in multiset(Select(invoices, UnpaidOf(owner))) - multiset(r) ==> r[i].val.date >= x.val.date
  {
    var s := Select(invoices, UnpaidOf(owner));
    DateDescIsTotalPreorder(InvoiceDate);
    TopOf(DateDesc(InvoiceDate), s, 5);
    forall x | x in r ensures x in s {
      assert x in multiset(s);
    }
    forall i, x | 0 <= i < |r| && x in multiset(s) - multiset(r) ensures r[i].val.date >= x.val.date {
      assert DateDesc(InvoiceDate)(r[i], x);
      assert InvoiceDate(r[i].val) >= InvoiceDate(x.val);
    }
  }

  /** The recent ledger entries are the caller's newest: no entry of the caller left out is newer than one shown. */
  lemma RecentAreNewest(txns: seq<Row<Transaction>>, owner: Id, r: seq<Row<Transaction>>)
    requires r == Take(Sorting.Sort(NewestFirst(Transactions.TxnDate), Select(txns, Transactions.OwnedBy(owner))), 10)
    ensures |r| == if Count(txns, Transactions.OwnedBy(owner)) <= 10 then Count(txns, Transactions.OwnedBy(owner)) else 10
    ensures forall i, x :: 0 <= i < |r| && x in multiset(Select(txns, Transactions.OwnedBy(owner))) - multiset(r) ==>
      r[i].val.date > x.val.date || (r[i].val.date == x.val.date && r[i].id >= x.id)
  {
    var s := Select(txns, Transactions.OwnedBy(owner));
    NewestFirstIsTotalPreorder(Transactions.TxnDate);
    TopOf(NewestFirst(Transactions.TxnDate), s, 10);
    forall i, x | 0 <= i < |r| && x in multiset(s) - multiset(r)
      ensures r[i].val.date > x.val.date || (r[i].val.date == x.val.date && r[i].id >= x.id)
    {
      assert NewestFirst(Transactions.TxnDate)(r[i], x);
      assert Transactions.TxnDate(r[i].val) > Transactions.TxnDate(x.val)
        || (Transactions.TxnDate(r[i].val) == Transactions.TxnDate(x.val) && r[i].id >= x.id);
    }
  }

  /**
   * An invoice whose caller-supplied status is `paid` with nothing paid has
   * its whole total outstanding, yet the dashboard does not list it.
   */
  lemma PaidStatusHidesOutstanding(inv: Row<Invoice>, owner: Id)
    requires inv.val.owner == owner && inv.val.status == Paid && inv.val.paidAmount == 0.0 && inv.val.totalAmount > 0.0
    ensures Outstanding(inv.val) == inv.val.totalAmount > 0.0
    ensures !UnpaidOf(owner)(inv)
  {
  }

  /** The dashboard's receivable and payable are the reports' figures. */
  lemma SameFiguresAsReports(db: Db, owner: Id, w: Window)
    ensures var rp := ReceivablePayable(SignedTotal(db.transactions.rows, db.parties.rows, owner));
      BuildReport(db, owner, Summary, w).totalReceivable == rp.0 && BuildReport(db, owner, Summary, w).totalPayable == rp.1
  {
  }
}
