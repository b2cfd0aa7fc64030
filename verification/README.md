# Invocraft bookkeeping core, modelled in Dafny

Invocraft is a small-business bookkeeping back end (a Laravel application).
This project models its core:

- **Parties and their ledger.** Parties are the customers and suppliers. The party ledger holds `debit` and `credit` entries, written by hand or by invoices and payments. A party's running balance is opening balance plus debits minus credits.
- **Invoices.** Creating an invoice validates the request and numbers the invoice. It computes totals and status, writes the item rows, lowers product stock, records stock movements and books a credit entry.
- **Payments.** A payment updates a linked invoice and books a debit entry.
- **The personal ledger.** This covers money given to or received from personal contacts. Each contact's balance splits into "you owe" and "they owe".
- **Categories.** An owner's category names are unique, ignoring case and surrounding spaces.
- **Reports and charts.** There are daily, weekly, monthly, summary and date-range reports. Charts come in custom or preset buckets. The dashboard collects figures from all of the above.
- **Sign-in by one-time password.** Codes are sent, resent and verified.

How the model represents the system:

- **Tables.** Every table is a value `Table(rows, nextId)` (module `Tables`). Rows carry the id the database gave them. Ids only grow, so row order, id order and `created_at` order coincide.
- **The database.** A `Store.Db` object has one such table per model. Each controller action that writes is a method on it, and its `modifies` clause names the tables the action touches. Read-only actions are functions of the tables.
- **Values.** Money is `real`. Dates are day numbers in the proleptic Gregorian calendar. OTP times are whole seconds.
- **Clock.** "Today" and "now" are parameters.

Some behaviour follows the code where a reader might expect otherwise:

- **Signs.** The reports' receivable/payable figure is credit-positive. `Party::getBalanceAttribute` is debit-positive. `Reports.SignsOpposite` relates the two.
- **Invoice numbers.** The unique index on invoice numbers is global, but the sequence number counts only the owner's own invoices. Two owners' first invoices of a day therefore get the same number. The second `create` then fails and the transaction rolls back. `StoreInvoice` models this as a `Failed` refusal that changes nothing; `Invoices.FirstInvoicesCollide` exhibits it.
- **Paid amount.** Invoice creation does not clamp the paid amount to the total, so an invoice can be created overpaid.
- **Unchecked ownership.** Request validation uses `exists:` rules. These look at every row, so a party, invoice or contact of another owner passes validation. The personal ledger is the one place that checks the owner afterwards, with a 404.
- **Category names.** Laravel's `required` rule already rejects a name of only spaces. The controller's own empty-after-trim check can therefore never fire.

## Model

| member | source | states |
|---|---|---|
| `Auth.DeriveOtp` | app/Http/Controllers/AuthController.php:38-43 | the code always has six characters; for a valid ten-digit number it is the number's last six digits and itself passes the code rule of `verifyOtp` |
| `Auth.Invalidate` | app/Http/Controllers/AuthController.php:49-51 | every OTP row keeps its id and fields except the verified flag, which ends set exactly when it was set or the row is for that mobile number |
| `Auth.SendOtp` | app/Http/Controllers/AuthController.php:18-73 | refused (422) exactly for a malformed mobile number, changing nothing; otherwise returns the derived code, retires the number's pending codes and appends a pending record expiring 300 seconds later |
| `Auth.ResendOtp` | app/Http/Controllers/AuthController.php:161-177 | behaves exactly as sending: same refusal, same code, same new OTP table |
| `Auth.SentIsOnlyPending` | app/Http/Controllers/AuthController.php:46-59 | after a send the new record (next id, derived code, unverified, expiring at now + 300) is last and is the only pending record of that number; rows of other numbers are untouched |
| `Auth.SendKeepsOnePending` | app/Http/Controllers/AuthController.php:49-59 | sending preserves the invariant that every mobile number has at most one pending code |
| `Auth.LatestPending` | app/Http/Controllers/AuthController.php:97-101 | the lookup returns the newest unverified record matching number and code, and nothing exactly when no record matches |
| `Auth.SentCodeVerifiesUntilExpiry` | app/Http/Controllers/AuthController.php:97-115 | right after a send the lookup finds the new record, and it counts as expired exactly when the clock is past the five minutes |
| `Auth.OnlySentCodeAccepted` | app/Http/Controllers/AuthController.php:97-107 | after a send any other code finds no pending record, so it is refused as invalid |
| `Auth.ConsumeKeepsOnePending` | app/Http/Controllers/AuthController.php:118 | marking the matched record verified keeps at most one pending code per number |
| `Auth.CodeIsSingleUse` | app/Http/Controllers/AuthController.php:97-118 | once a code has been accepted, the same number and code find no pending record: a code works once |
| `Auth.FirstUser` | app/Http/Controllers/AuthController.php:121 | the first user with that mobile number, none exactly when no user has it |
| `Auth.SignIn` | app/Http/Controllers/AuthController.php:121-129 | an existing user is returned with the users unchanged; otherwise an unregistered user with the next id is appended and returned |
| `Auth.SignInIdempotent` | app/Http/Controllers/AuthController.php:121-129 | signing the same number in twice creates no second user and returns the same user |
| `Auth.SessionOf` | app/Http/Controllers/AuthController.php:132-154 | the response carries the user's id and number, a token exactly when registration is complete, and asks for registration exactly when there is no token |
| `Auth.FirstSignInHasNoToken` | app/Http/Controllers/AuthController.php:121-139 | a user created by a verification gets no token and is asked to register |
| `Auth.VerifyOtp` | app/Http/Controllers/AuthController.php:78-156 | 422 for malformed input, 401 when no pending record matches, 401 when the newest match has expired, each changing nothing; otherwise the match is consumed, the user signed in and the session returned |
| `Balances.PartyBalance` | app/Models/Party.php:49-54 | opening balance plus the party's debits minus its credits, which is the opening balance plus one signed sum over the ledger: a debit row of the party counts +amount, a credit row −amount, any other party's row 0 |
| `Balances.PartyBalanceWithoutTransactions` | app/Models/Party.php:49-54 | a party without ledger rows has its opening balance |
| `Balances.PartyBalanceAppend` | app/Models/Party.php:49-54 | a new debit row of the party raises its balance by the amount, a credit lowers it, another party's row changes nothing |
| `Balances.PartyBalancePermutation` | app/Models/Party.php:49-54 | the balance does not depend on the order of the ledger rows |
| `Balances.PartyBalanceRemoveAt` | app/Models/Party.php:49-54 | deleting a ledger row takes its effect back out of the balance |
| `Balances.PartyBalanceOwnRows` | app/Models/Party.php:34-37 | only the rows carrying the party's id count: the balance over them alone is the same |
| `Balances.ContactBalance` | app/Models/PersonalContact.php:39-45 | opening balance plus money given minus money received, which is the opening balance plus one signed sum over the personal ledger: a `given` row of the contact counts +amount, a `received` row −amount, any other contact's row 0 |
| `Balances.ContactBalanceAppend` | app/Models/PersonalContact.php:39-45 | a `given` row of the contact raises its balance by the amount, a `received` row lowers it, another contact's row changes nothing |
| `Balances.ContactBalanceRemoveAt` | app/Models/PersonalContact.php:39-45 | deleting a personal ledger row takes its effect back out of the contact's balance |
| `Balances.OwedByOwner` | app/Models/PersonalContact.php:47-51 | never negative, and positive exactly when the balance is negative |
| `Balances.OwedToOwner` | app/Models/PersonalContact.php:53-57 | never negative, and positive exactly when the balance is positive |
| `Balances.OwedSplit` | app/Models/PersonalContact.php:47-57 | "they owe" minus "you owe" gives back the balance, and at most one of them is nonzero |
| `Balances.YouOwe` | app/Models/PersonalContact.php:47-51 | never negative, and when positive it is minus the contact's balance |
| `Balances.TheyOwe` | app/Models/PersonalContact.php:53-57 | never negative, and when positive it is the contact's balance |
| `Balances.ContactOweSplit` | app/Models/PersonalContact.php:39-57 | for every contact the two accessors recompose its balance and are never both nonzero |
| `Balances.Outstanding` | app/Models/Invoice.php:55-58 | total minus paid, unclamped: paid plus outstanding make up the total, and something is outstanding exactly when less than the total has been paid |
| `Calendar.DaysInMonth` | app/Http/Controllers/ReportController.php:155-156 | a month has 28 to 31 days, and February has 29 exactly in leap years |
| `Calendar.ShiftMonth` | app/Http/Controllers/ReportController.php:394 | moving k months gives a valid month whose month count (year * 12 + month) is shifted by exactly k |
| `Calendar.MonthWindow` | app/Http/Controllers/ReportController.php:155-156 | the window runs from the day number of the 1st to that of the last day, and spans the month's length |
| `Calendar.DayInMonthWindow` | app/Http/Controllers/ReportController.php:155-156 | every date of a month lies inside its window |
| `Calendar.MonthWindowDay` | app/Http/Controllers/ReportController.php:155-156 | every day number inside a month's window is a valid date of that month |
| `Calendar.MonthWindowsAdjacent` | app/Http/Controllers/ReportController.php:392-411 | the next month's window starts the day after this one's ends |
| `Calendar.WeekWindow` | app/Http/Controllers/ReportController.php:109 | the week report covers seven days from the given start |
| `Calendar.MondayOf` | app/Http/Controllers/ReportController.php:305 | "monday this week" is a Monday, and the day lies in the seven days starting there |
| `Calendar.FirstOfYearOneIsMonday` | app/Http/Controllers/ReportController.php:305 | the weekday numbering agrees with the Gregorian calendar: 1 January of year 1 is a Monday |
| `Categories.IndexCategories` | app/Http/Controllers/CategoryController.php:11-22 | exactly the owner's categories, ordered by name, and a permutation of the filtered rows |
| `Categories.StoreRefusal` | app/Http/Controllers/CategoryController.php:24-55 | refused (422) exactly when the name fails the rules or the owner already has the trimmed name, ignoring case |
| `Categories.EmptyNameCheckUnreachable` | app/Http/Controllers/CategoryController.php:39-45 | a name that passes the rules is never empty after trimming, so the controller's own emptiness check never fires |
| `Categories.LengthCheckedBeforeTrim` | app/Http/Controllers/CategoryController.php:26-39 | the 100-character limit applies before trimming: "a" followed by 100 spaces is refused although it trims to one character |
| `Categories.TrimAfterLetter` | app/Http/Controllers/CategoryController.php:39 | trailing spaces after a letter are trimmed away |
| `Categories.StoreKeepsNamesUnique` | app/Http/Controllers/CategoryController.php:47-60 | storing a name the owner does not have keeps every owner's names unique, ignoring case |
| `Categories.DestroyKeepsNamesUnique` | app/Http/Controllers/CategoryController.php:68-80 | deleting a category keeps the names unique |
| `Categories.SameNameRefusedAfterStore` | app/Http/Controllers/CategoryController.php:47-55 | after a name is stored, any name that trims and lower-cases to it counts as taken |
| `Categories.StoreCategory` | app/Http/Controllers/CategoryController.php:24-66 | refused exactly as `StoreRefusal` says, changing nothing; otherwise appends the trimmed name with the next id, and uniqueness of names is preserved |
| `Categories.DestroyCategory` | app/Http/Controllers/CategoryController.php:68-80 | 404 exactly when the owner has no category with that id, changing nothing; otherwise that row is removed |
| `Charts.BucketIsRangeReport` | app/Http/Controllers/ReportController.php:310-322 | a chart point over [from, to] has the sales, expenses and net profit of the range report over the same days |
| `Charts.DailyRange` | app/Http/Controllers/ReportController.php:327-345 | one point per day from start to end (none when end is before start), the k-th being the bucket of day start + k |
| `Charts.RangeWeeks` | app/Http/Controllers/ReportController.php:303-325 | the k-th weekly point covers the week starting k weeks after the first Monday, cut off at the end date |
| `Charts.WeeklyRange` | app/Http/Controllers/ReportController.php:303-325 | the loop stops with the last week starting on or before the end and the next one after it, and yields exactly those weekly points |
| `Charts.WeeklyBucketsTile` | app/Http/Controllers/ReportController.php:303-325 | weekly buckets start at the Monday on or before the start, each ends the day before the next begins, and the last ends at the end date |
| `Charts.RangeChart` | app/Http/Controllers/ReportController.php:300-348 | more than 14 days apart gives weekly points, otherwise daily points, as above |
| `Charts.DaySeries` | app/Http/Controllers/ReportController.php:355-372 | the k-th of n daily points is the bucket of the day n - 1 - k days before today |
| `Charts.LastDays` | app/Http/Controllers/ReportController.php:355-372 | the loop yields exactly the n daily points ending today |
| `Charts.WeekSeries` | app/Http/Controllers/ReportController.php:373-391 | the k-th of n weekly points covers the seven days from the Monday n - 1 - k weeks before this week's |
| `Charts.LastWeeks` | app/Http/Controllers/ReportController.php:373-391 | the loop yields exactly the n weekly points ending with the current week |
| `Charts.MonthSeries` | app/Http/Controllers/ReportController.php:392-411 | the k-th of n monthly points covers the whole month n - 1 - k months before the current one |
| `Charts.LastMonths` | app/Http/Controllers/ReportController.php:392-411 | the loop yields exactly the n monthly points ending with the current month |
| `Charts.ChoosePreset` | app/Http/Controllers/ReportController.php:350-393 | daily exactly for period `daily` with a positive day count (capped at 31); weekly exactly for `weekly` with a positive week count (capped at 12); otherwise monthly, capped at 24, and none when the month count is not positive |
| `Charts.DefaultIsSixMonths` | app/Http/Controllers/ReportController.php:350-353 | with no parameters the chart shows six months |
| `Charts.PresetChart` | app/Http/Controllers/ReportController.php:350-411 | the points are the daily, weekly or monthly series the preset names |
| `Charts.Chart` | app/Http/Controllers/ReportController.php:293-415 | with both dates the custom-range points, otherwise the preset series |
| `Charts.MonthsConsecutive` | app/Http/Controllers/ReportController.php:392-411 | consecutive monthly points cover adjacent months with no gap |
| `Charts.PresetBucketsEndToday` | app/Http/Controllers/ReportController.php:355-391 | in the daily and the weekly series each point starts the day after the previous one ends; the last daily point is today and the last weekly point contains today |
| `Dashboard.Recent` | app/Http/Controllers/DashboardController.php:57-62 | at most n rows, each one of the table's rows satisfying the filter |
| `Dashboard.OweTotals` | app/Http/Controllers/DashboardController.php:109-118 | the loop's totals are the sums of the accessors over the contacts, never negative, and they differ by the sum of the balances |
| `Dashboard.Index` | app/Http/Controllers/DashboardController.php:18-159 | every dashboard figure and list is the corresponding sum, filter, ordering and limit over the owner's rows for today and this month |
| `Dashboard.OutstandingAreNewest` | app/Http/Controllers/DashboardController.php:70-75 | at most five of the owner's invoices not marked paid, and none left out is dated later than one shown |
| `Dashboard.RecentAreNewest` | app/Http/Controllers/DashboardController.php:57-62 | the ten (or all, if fewer) newest of the owner's entries, by date and then by creation |
| `Dashboard.PaidStatusHidesOutstanding` | app/Http/Controllers/DashboardController.php:70-75 | an invoice created as `paid` with nothing paid has money outstanding yet is not listed as outstanding |
| `Dashboard.SameFiguresAsReports` | app/Http/Controllers/DashboardController.php:25-43 | the dashboard's receivable and payable equal those of the reports |
| `Invoices.ComputeTotals` | app/Http/Controllers/InvoiceController.php:77-87 | the loop's subtotal, tax and total are the sums over the items, and total = subtotal + tax |
| `Invoices.TotalsNonNegative` | app/Http/Controllers/InvoiceController.php:49-58 | for a request that passes validation, subtotal and tax are not negative |
| `Invoices.ResolveStatus` | app/Http/Controllers/InvoiceController.php:88-96 | paid when the paid amount reaches the total, partially paid when it is positive and below, else the requested status or unpaid |
| `Invoices.ZeroTotalIsPaid` | app/Http/Controllers/InvoiceController.php:88-96 | an invoice with a zero total and nothing paid is paid, whatever status was requested |
| `Invoices.CallerPaidStatusKept` | app/Http/Controllers/InvoiceController.php:88-96 | a requested `paid` status survives with nothing paid on a positive total |
| `Invoices.TwoDigits` | app/Http/Controllers/InvoiceController.php:74 | two digits that read back as the number |
| `Invoices.DateStamp` | app/Http/Controllers/InvoiceController.php:74 | the `Ymd` stamp is eight digits: the first four read back as today's year, the next two as its month and the last two as its day |
| `Invoices.Sequence` | app/Http/Controllers/InvoiceController.php:74 | the sequence part has at least four digits and reads back as the owner's invoice count plus one |
| `Invoices.InvoiceNumberParts` | app/Http/Controllers/InvoiceController.php:74 | the number is `INV-`, the date stamp, `-`, and digits reading back as count + 1 |
| `Invoices.NumberLayout` | app/Http/Controllers/InvoiceController.php:74 | the parts of a number can be read back at fixed positions |
| `Invoices.InvoiceNumberInjective` | app/Http/Controllers/InvoiceController.php:74 | on one day, different counts give different numbers |
| `Invoices.FirstInvoicesCollide` | app/Http/Controllers/InvoiceController.php:74 | an owner with no invoices gets a number already taken when another owner's first invoice of the day exists |
| `Invoices.OverpaidAtCreation` | app/Http/Controllers/InvoiceController.php:88-96 | creating with 50 more paid than the total gives a paid invoice with -50 outstanding, since the accessor at app/Models/Invoice.php:57 does not clamp |
| `Invoices.ItemTotalsSum` | app/Http/Controllers/InvoiceController.php:77-126 | the stored item totals add up to the invoice's subtotal plus tax |
| `Invoices.StoredTotalsAre` | app/Http/Controllers/InvoiceController.php:118-126 | the stored item totals add up to the totals of the requested items, each its price times quantity plus its tax |
| `Invoices.TwoItemExample` | app/Http/Controllers/InvoiceController.php:77-87 | two items at 50.00 (quantities 2 and 3, tax rate 8% on the second) give subtotal 250 and tax 12 |
| `Invoices.StockAfterAt` | app/Http/Controllers/InvoiceController.php:113-141 | after the items, each product's stock is lowered by the total quantity of it on the invoice, every other field and id kept |
| `Invoices.QuantityOfAbsent` | app/Http/Controllers/InvoiceController.php:129 | a product on no item keeps its stock |
| `Invoices.SameProductTwice` | app/Http/Controllers/InvoiceController.php:129 | a product on two items is decremented by both quantities |
| `Invoices.InvoiceLowersBalance` | app/Http/Controllers/InvoiceController.php:144-153 | the invoice's credit entry lowers the party's balance by the invoice total |
| `Invoices.WriteItem` | app/Http/Controllers/InvoiceController.php:118-140 | one item appends its item row and its `out` movement and decrements its product's stock |
| `Invoices.WriteItems` | app/Http/Controllers/InvoiceController.php:113-141 | the item loop appends all item rows and movements in order and leaves the stock as `StockAfter` says |
| `Invoices.WriteInvoice` | app/Http/Controllers/InvoiceController.php:99-153 | the invoice row, its items, movements, stock changes and credit entry, with the new invoice's id |
| `Invoices.Refusal` | app/Http/Controllers/InvoiceController.php:46-74 | 422 exactly when validation fails, a failure exactly when it passes but the number is already taken, else none |
| `Invoices.StoreInvoice` | app/Http/Controllers/InvoiceController.php:46-170 | refused exactly as `Refusal` says, changing nothing; otherwise every write of `WriteInvoice` under the owner's next number |
| `Parties.TypeShownCases` | app/Http/Controllers/PartyController.php:16-28 | `customer` and `supplier` also list `both`, `both` lists only `both`, a missing or unknown type lists all |
| `Parties.IndexParties` | app/Http/Controllers/PartyController.php:11-34 | exactly the owner's parties of the shown types, ordered by name, a permutation of the filtered rows |
| `Parties.NewParty` | app/Http/Controllers/PartyController.php:55-63 | the new party is the owner's, opening balance 0 and status active unless given |
| `Parties.NewPartyStartsAtZero` | app/Http/Controllers/PartyController.php:55-63 | a party created without an opening balance has balance 0 |
| `Parties.StoreParty` | app/Http/Controllers/PartyController.php:36-70 | 422 exactly for an invalid request, changing nothing; otherwise appends the new party with the next id |
| `Parties.UpdateOnlySentFields` | app/Http/Controllers/PartyController.php:106-108 | fields left out of the request keep their values and sent ones take the sent value |
| `Parties.OpeningBalanceShiftsBalance` | app/Http/Controllers/PartyController.php:106-108 | an update moves the party's balance by exactly the change of its opening balance |
| `Parties.UpdateParty` | app/Http/Controllers/PartyController.php:85-115 | 404, then 422, then a failure when a null is sent for a not-null column, each changing nothing; otherwise only that row is replaced by the updated party |
| `Parties.ShowParty` | app/Http/Controllers/PartyController.php:72-83 | the owner's party with that id and its counts of ledger entries, invoices and payments; not found exactly when the owner has no such party |
| `Parties.DeleteLedgerOf` | app/Http/Controllers/PartyController.php:128-131 | removes exactly the ledger rows with the party's id |
| `Parties.DeletePaymentsOf` | app/Http/Controllers/PartyController.php:138-141 | removes exactly the payments with the party's id |
| `Parties.DeleteInvoicesOf` | app/Http/Controllers/PartyController.php:133-136 | removes the party's invoices, their item rows by cascade, and unlinks other payments from them |
| `Parties.DeleteInvoicesAndPaymentsOf` | app/Http/Controllers/PartyController.php:133-141 | the two deletions in order |
| `Parties.DeleteParty` | app/Http/Controllers/PartyController.php:123-144 | counts the related rows, then deletes ledger rows, invoices (with items), payments and the party |
| `Parties.DestroyParty` | app/Http/Controllers/PartyController.php:117-155 | 404 exactly when the owner has no such party, changing nothing; otherwise the deletions and counts of `DeleteParty` |
| `Parties.DestroyCountsMatch` | app/Http/Controllers/PartyController.php:124-153 | the reported count is exactly how many ledger entries disappear, and none of the party's remain |
| `Parties.DestroyKeepsOtherBalances` | app/Http/Controllers/PartyController.php:128-131 | every other party's balance is unchanged by the deletion |
| `Parties.DestroyKeepsOtherPayments` | app/Http/Controllers/PartyController.php:133-141 | another party's payment survives, changed only by losing its link when that link was to a deleted invoice |
| `Payments.ApplyPayment` | app/Http/Controllers/PaymentController.php:51-64 | reaching the total makes the invoice paid with paid amount = total; a positive amount below the total makes it partially paid with the sum; otherwise unchanged |
| `Payments.PaymentBounds` | app/Http/Controllers/PaymentController.php:51-64 | with a valid amount the invoice ends paid or partially paid, never paid beyond its total, with only status and paid amount changed |
| `Payments.FullPaymentClearsOutstanding` | app/Http/Controllers/PaymentController.php:53-61 | a payment reaching the total leaves nothing outstanding (`Invoice::getOutstandingAmountAttribute`, app/Models/Invoice.php:57) |
| `Payments.PartialPaymentReducesOutstanding` | app/Http/Controllers/PaymentController.php:53-61 | a partial payment lowers the outstanding amount (`Invoice::getOutstandingAmountAttribute`, app/Models/Invoice.php:57) by exactly the amount |
| `Payments.PaidInvoiceStaysPaid` | app/Http/Controllers/PaymentController.php:53-61 | paying on a fully paid invoice changes nothing |
| `Payments.PaymentOnOverpaidInvoice` | app/Http/Controllers/PaymentController.php:53-61 | a payment on an invoice created overpaid lowers its paid amount to the total |
| `Payments.InvoicesAfterFind` | app/Http/Controllers/PaymentController.php:51-64 | the linked invoice reads back with the payment applied, every other invoice as before |
| `Payments.PaymentRaisesBalance` | app/Http/Controllers/PaymentController.php:67-76 | the payment's debit entry raises the party's balance by the amount |
| `Payments.StorePayment` | app/Http/Controllers/PaymentController.php:14-93 | 422 exactly for an invalid request, changing nothing; otherwise appends the payment, updates only the linked invoice and appends one debit entry referencing the payment |
| `PersonalTransactions.IndexedRows` | app/Http/Controllers/PersonalTransactionController.php:19-36 | a row is listed exactly when it is the owner's and meets every filter that is switched on |
| `PersonalTransactions.IndexPersonalTransactions` | app/Http/Controllers/PersonalTransactionController.php:11-46 | the filtered rows, newest first, as a permutation of the matches |
| `PersonalTransactions.StorePersonalTransaction` | app/Http/Controllers/PersonalTransactionController.php:48-90 | 422 exactly for an invalid request, 404 exactly when the contact is another owner's, each changing nothing; otherwise appends the new entry |
| `PersonalTransactions.StoreMovesContactBalance` | app/Http/Controllers/PersonalTransactionController.php:72-81 | a new `given` entry raises the contact's balance by the amount, a `received` one lowers it |
| `PersonalTransactions.UpdateOnlySentFields` | app/Http/Controllers/PersonalTransactionController.php:113-115 | fields left out keep their values and sent ones take the sent value |
| `PersonalTransactions.UpdateIdempotent` | app/Http/Controllers/PersonalTransactionController.php:113-115 | applying the same update twice is the same as once |
| `PersonalTransactions.UpdateKeepsContact` | app/Http/Controllers/PersonalTransactionController.php:96-115 | an update never moves an entry to another contact |
| `PersonalTransactions.UpdatePersonalTransaction` | app/Http/Controllers/PersonalTransactionController.php:92-124 | 404 then 422, each changing nothing; otherwise only that row is replaced by the updated entry |
| `PersonalTransactions.DestroyPersonalTransaction` | app/Http/Controllers/PersonalTransactionController.php:126-135 | 404 exactly when the owner has no such entry, changing nothing; otherwise that row is removed |
| `PersonalTransactions.DestroyRemovesOneEntry` | app/Http/Controllers/PersonalTransactionController.php:128-129 | exactly one row disappears, the others keep their order, and the contact's balance loses exactly that row's effect |
| `Queries.ByNameIsTotalPreorder` | app/Http/Controllers/PartyController.php:28 | ordering by name is a total preorder |
| `Queries.NewestFirstIsTotalPreorder` | app/Http/Controllers/TransactionController.php:38-40 | ordering by date then creation, both descending, is a total preorder |
| `Queries.DateDescIsTotalPreorder` | app/Http/Controllers/DashboardController.php:73 | ordering by date descending is a total preorder |
| `Queries.TopOf` | app/Http/Controllers/DashboardController.php:57-62 | sorting then limiting to n gives min(n, size) rows, sorted, drawn from the input, none of the rest ordered before any of them |
| `Queries.FindOwned` | app/Http/Controllers/TransactionController.php:89-98 | a found row is in the table and is the owner's; with unique ids nothing found means no owner's row has that id |
| `Queries.FindOwnedRow` | app/Http/Controllers/TransactionController.php:89-98 | the owner's row with that id is always found |
| `Records.ParseTxnType` | app/Http/Controllers/TransactionController.php:52 | accepted exactly for `debit` and `credit` |
| `Records.TxnTypeName` | app/Http/Controllers/TransactionController.php:52 | the stored name parses back to the same type |
| `Records.ParsePersonalTxnType` | app/Http/Controllers/PersonalTransactionController.php:52 | accepted exactly for `given` and `received` |
| `Records.PersonalTxnTypeName` | app/Http/Controllers/PersonalTransactionController.php:52 | the stored name parses back to the same type |
| `Records.ParsePaymentStatus` | app/Http/Controllers/InvoiceController.php:56 | accepted exactly for `paid`, `partially_paid` and `unpaid` |
| `Records.ParsePartyType` | app/Http/Controllers/PartyController.php:42 | accepted exactly for `customer`, `supplier` and `both` |
| `Records.ParseActiveStatus` | app/Http/Controllers/PartyController.php:44 | accepted exactly for `active` and `inactive` |
| `Records.ParsePaymentMethod` | app/Http/Controllers/PaymentController.php:21 | accepted exactly for the five payment methods |
| `Records.ParsePersonalMethod` | app/Http/Controllers/PersonalTransactionController.php:56 | accepted exactly for the four personal methods, never `cheque` |
| `Reports.ReceivablePayable` | app/Http/Controllers/ReportController.php:39-54 | receivable and payable are never negative, at most one is nonzero, their difference is the signed total, receivable exactly when it is positive, payable exactly when negative |
| `Reports.SignsOpposite` | app/Http/Controllers/ReportController.php:39-54 | a party's credit-positive ledger sum is its opening balance minus its balance |
| `Reports.ZeroOpeningTotalIsMinusBalance` | app/Http/Controllers/ReportController.php:39-54 | for one party with zero opening balance the signed total is minus that party's balance |
| `Reports.BuildReport` | app/Http/Controllers/ReportController.php:17-34 | net profit = sales - expenses; receivable and payable split the signed total; credit and debit totals are zero outside the range report |
| `Reports.DailyReport` | app/Http/Controllers/ReportController.php:59-99 | 422 exactly without a date; otherwise the report over that one day |
| `Reports.WeeklyReport` | app/Http/Controllers/ReportController.php:104-145 | 422 exactly without a start; otherwise the report over the seven days from it |
| `Reports.MonthlyReport` | app/Http/Controllers/ReportController.php:150-192 | 422 exactly without a valid month; otherwise the report from its 1st to its last day |
| `Reports.SummaryReport` | app/Http/Controllers/ReportController.php:197-224 | the report over all time |
| `Reports.RangeReport` | app/Http/Controllers/ReportController.php:230-286 | 422 exactly when a date is missing or the end precedes the start; otherwise the report over the range, with the credit and debit totals of the owner's entries in it |
| `Reports.RangeOfOneDayIsDaily` | app/Http/Controllers/ReportController.php:230-286 | a one-day range report has the daily report's figures |
| `Reports.RangeOfWeekIsWeekly` | app/Http/Controllers/ReportController.php:230-286 | a seven-day range report has the weekly report's figures |
| `Reports.RangeOfMonthIsMonthly` | app/Http/Controllers/ReportController.php:230-286 | a range report over a whole month has the monthly report's figures |
| `Reports.RangeCoversLedger` | app/Http/Controllers/ReportController.php:256-264 | over a range holding all the owner's entries, credit minus debit is the owner's whole credit-positive ledger sum |
| `Reports.RangeAppend` | app/Http/Controllers/ReportController.php:256-264 | a new entry inside the range raises the entry count by one and its kind's total by its amount |
| `Sorting.Sort` | app/Http/Controllers/TransactionController.php:38-40 | the result is ordered and is a permutation of the input |
| `Store.Db.AddTransaction` | app/Http/Controllers/PaymentController.php:67-76 | appends the ledger entry with the next id and returns that id |
| `Tables.Insert` | app/Http/Controllers/TransactionController.php:66-74 | `create` appends the row with the next id and keeps ids ascending |
| `Tables.InsertAll` | app/Http/Controllers/InvoiceController.php:113-141 | creating in a loop gives the rows consecutive ids, in order, after the existing ones |
| `Tables.Select` | app/Http/Controllers/TransactionController.php:22-36 | a `where` keeps exactly the rows satisfying the condition |
| `Tables.Find` | app/Http/Controllers/TransactionController.php:110-117 | a found value is the table's row with that id; nothing found means no row has it |
| `Tables.FindRow` | app/Http/Controllers/TransactionController.php:110-117 | with unique ids, every row is found by its id |
| `Tables.Remove` | app/Http/Controllers/TransactionController.php:156-165 | `delete` keeps exactly the rows with other ids |
| `Tables.RemoveOne` | app/Http/Controllers/TransactionController.php:156-165 | deleting a present id takes out exactly that row and keeps the others in order |
| `Tables.RemoveFound` | app/Http/Controllers/TransactionController.php:156-165 | deleting takes out exactly the row that `find` returns |
| `Tables.Replace` | app/Http/Controllers/TransactionController.php:135-141 | `update` changes the value of the row with that id and nothing else |
| `Tables.FindReplaced` | app/Http/Controllers/TransactionController.php:135-141 | the updated row reads back as the new value |
| `Tables.FindReplaceOther` | app/Http/Controllers/TransactionController.php:135-141 | every other id reads back as before |
| `Tables.Take` | app/Http/Controllers/DashboardController.php:61 | `limit(n)` keeps exactly the first n rows when there are more, and all of them otherwise |
| `Text.NatToString` | app/Http/Controllers/InvoiceController.php:74 | a non-empty digit string, a single digit exactly below 10 |
| `Text.ParseNatToString` | app/Http/Controllers/InvoiceController.php:74 | the decimal string reads back as the number |
| `Text.PadLeft` | app/Http/Controllers/InvoiceController.php:74 | `str_pad` to the left: the width or the string's length, the string at the end, padding before it |
| `Text.PadLeftParts` | app/Http/Controllers/InvoiceController.php:74 | padding is repeated fill then the string, and a long enough string is unchanged |
| `Text.PaddedNatRoundTrip` | app/Http/Controllers/InvoiceController.php:74 | a zero-padded number is digits and reads back as the number |
| `Text.Substr` | app/Http/Controllers/AuthController.php:38 | `substr` returns at most length characters, and the slice when it fits |
| `Text.TrimStart` | app/Http/Controllers/CategoryController.php:39 | the input with a leading run of strippable characters removed: every removed character is strippable and the rest does not start with one; empty exactly for an all-space input |
| `Text.TrimEnd` | app/Http/Controllers/CategoryController.php:39 | the input with a trailing run of strippable characters removed: every removed character is strippable and the rest does not end with one; empty exactly for an all-space input |
| `Text.Trim` | app/Http/Controllers/CategoryController.php:39 | a contiguous slice of the input such that everything cut before and after it is strippable and it neither starts nor ends with a strippable character; empty exactly for an all-space input |
| `Text.Lower` | app/Http/Controllers/CategoryController.php:48 | each character lower-cased, length kept |
| `Text.LowerIdempotent` | app/Http/Controllers/CategoryController.php:48 | lower-casing twice is lower-casing once |
| `Text.NameLeqTotal` | app/Http/Controllers/PartyController.php:28 | any two names are ordered one way or the other |
| `Text.NameLeqTransitive` | app/Http/Controllers/PartyController.php:28 | the name order is transitive |
| `Transactions.IndexedRows` | app/Http/Controllers/TransactionController.php:22-36 | a row is listed exactly when it is the owner's and meets every filter that is switched on |
| `Transactions.IndexTransactions` | app/Http/Controllers/TransactionController.php:11-46 | the filtered rows, newest first, as a permutation of the matches |
| `Transactions.StoreAcceptsAnyOwnersParty` | app/Http/Controllers/TransactionController.php:50-64 | the validator accepts an entry for another owner's party |
| `Transactions.StoreTransaction` | app/Http/Controllers/TransactionController.php:48-83 | 422 exactly for an invalid request, changing nothing; otherwise appends a manual entry with the next id |
| `Transactions.StoreMovesBalance` | app/Http/Controllers/TransactionController.php:66-74 | a new debit raises the party's balance by the amount, a credit lowers it |
| `Transactions.ShowTransaction` | app/Http/Controllers/TransactionController.php:85-104 | the owner's entry with that id; not found exactly when the owner has none |
| `Transactions.EmptyUpdateKeepsEntry` | app/Http/Controllers/TransactionController.php:135-141 | an update sending no fields changes nothing |
| `Transactions.UpdateIdempotent` | app/Http/Controllers/TransactionController.php:135-141 | applying the same update twice is the same as once |
| `Transactions.UpdateOnlySentFields` | app/Http/Controllers/TransactionController.php:135-141 | fields left out keep their values and sent ones take the sent value |
| `Transactions.UpdateTransaction` | app/Http/Controllers/TransactionController.php:106-150 | 404 then 422, each changing nothing; otherwise only that row is replaced by the updated entry |
| `Transactions.DestroyTransaction` | app/Http/Controllers/TransactionController.php:152-171 | 404 exactly when the owner has no such entry, changing nothing; otherwise that row is removed |
| `Transactions.DestroyRemovesOneEntry` | app/Http/Controllers/TransactionController.php:156-165 | exactly one row disappears, the others keep their order, and the party's balance loses exactly that row's effect |

## Left out

- Rounding: `round(x, 2)` and the two-decimal columns are not modelled. Money is exact.
- Column range: the range of the `decimal(15,2)` money columns is not modelled. The model accepts any amount the validation rules let through, while the database refuses a value beyond that range and the request ends in a 500.
- Floating point: PHP floats are not modelled either.
- Clock and time zones: the clock is a parameter. `strtotime` arithmetic, daylight-saving shifts and time zones are not modelled, and days are whole day numbers.
- Chart dates that do not parse: the custom chart range takes `start_date` and `end_date` as given and never validates them. A string `strtotime` cannot parse yields `false`, which the arithmetic reads as timestamp 0 (1970-01-01). The model's chart takes each date as an already-parsed day or as absent, so it does not capture a chart built from such a string. The PHP truthiness of the strings (`"0"` counts as absent) is not modelled either.
- Request trimming: request strings are taken to reach the controllers as sent. If a global `TrimStrings` middleware is installed (the middleware stack is not part of this model), `required` and `max:100` see the trimmed category name, and `Categories.LengthCheckedBeforeTrim` does not describe the running application.
- Chart labels: the `label` and `period` strings of chart points are not modelled.
- Collation: MySQL collation and `LOWER` are not modelled. Lower-casing is ASCII only. Name ordering (`orderBy('name')` for parties and categories) is the code-point order of the names as stored, so upper-case names sort before lower-case ones; a case-insensitive database collation would interleave them.
- Equal creation times: ties on `created_at` fall back to id order, so rows created within the same second are ordered by id.
- Equal invoice dates: the dashboard's outstanding invoices are ordered by `invoice_date` only, so the database may return invoices of the same date in any order. `Dashboard.Index` uses the stable sort, so which of several same-date invoices fill the last of the five places is the model's choice. `Dashboard.OutstandingAreNewest` is proved for that sort, but what it states (at most five, none left out dated later than one shown) holds for every order the database may choose.
- Tokens: only the claims (user id and mobile number) are modelled. The base64/JSON encoding, the 30-day expiry and the token middleware are not.
- `AuthController::updateShopDetails` and `verifyToken`: these, and the rest of the user profile, are not part of this model.
- Debug echo: the OTP echoed in debug mode is a response detail and is not modelled.
- HTTP: response bodies, messages and status texts are left out. Refusals are modelled as error values: 422 ValidationFailed, 404 NotFound, 401 InvalidOtp/ExpiredOtp, and 500 Failed.
- Concurrency: the model is sequential. Two requests interleaving inside a database transaction are not modelled.
- Invoice rollbacks: the only failure modelled after validation is the invoice-number collision. Exceptions that cannot happen after validation in a sequential run are left out.
- Other controllers: `InvoiceController::index` and `show` are not modelled. Neither are the products, personal contacts, expenses and purchases controllers; their tables appear only as data the core reads.
- `Reports.ZeroOpeningTotalIsMinusBalance` is stated for a ledger of one party only, not for a whole owner's ledger, because the owner-wide identity is false in general: `exists:parties,id` is not scoped to the owner (`Transactions.StoreAcceptsAnyOwnersParty`), so an owner's ledger can hold rows for other owners' parties, whose balances are not the owner's.
- `PersonalTransactions.UpdateOnlySentFields` does not state which method a sent `payment_method` becomes; it states only that an unsent one is kept.
- `Parties.UpdateOnlySentFields` does not state the values that sent `type` and `status` fields become; it states only that unsent ones are kept.
- `Dashboard.Recent` states only the bound and that the rows come from the filtered table. `Queries.TopOf` states the ordering and the "newest" guarantee.
