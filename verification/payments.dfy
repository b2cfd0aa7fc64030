/**
 * Payment recording (`PaymentController::store`): the request is validated,
 * a payment row is written, a linked invoice takes the amount into its paid
 * amount (clamped at its total) and gets a new status, and one `debit`
 * ledger entry is written, linked invoice or not.
 */
module Payments {
  import opened Wrappers
  import opened Tables
  import opened Records
  import opened Balances
  import opened Store

  /** The request body; `paymentDate` is None when it is missing or not a date. */
  datatype PaymentRequest = PaymentRequest(
    partyId: Id, invoiceId: Option<Id>, amount: Money, paymentDate: Option<Day>,
    paymentMethod: string, referenceNumber: Option<string>, notes: Option<string>)

  /**
   * The validator of `store`. `exists` looks at every row of the table, so
   * neither the party nor the invoice has to belong to the caller, and the
   * invoice does not have to be the party's.
   */
  predicate ValidPaymentRequest(parties: seq<Row<Party>>, invoices: seq<Row<Invoice>>, req: PaymentRequest)
  {
    && Find(parties, req.partyId).Some?
    && (req.invoiceId.None? || Find(invoices, req.invoiceId.value).Some?)
    && ValidAmount(req.amount)
    && req.paymentDate.Some?
    && ParsePaymentMethod(req.paymentMethod).Some?
    && (req.referenceNumber.None? || |req.referenceNumber.value| <= 255)
    && (req.notes.None? || |req.notes.value| <= 1000)
  }

  /**
   * The invoice after a payment of `amount`: a new paid amount reaching the
   * total makes it `paid` with the paid amount set to the total, a positive
   * one below the total makes it `partially_paid`, and otherwise it is left
   * as it was.
   */
  function ApplyPayment(inv: Invoice, amount: Money): (r: Invoice)
    ensures inv.paidAmount + amount >= inv.totalAmount ==>
      r == inv.(status := Paid, paidAmount := inv.totalAmount)
    ensures 0.0 < inv.paidAmount + amount < inv.totalAmount ==>
      r == inv.(status := PartiallyPaid, paidAmount := inv.paidAmount + amount)
    ensures inv.paidAmount + amount <= 0.0 && inv.paidAmount + amount < inv.totalAmount ==> r == inv
  {
    var newPaid := inv.paidAmount + amount;
    if newPaid >= inv.totalAmount then inv.(status := Paid, paidAmount := inv.totalAmount)
    else if newPaid > 0.0 then inv.(status := PartiallyPaid, paidAmount := newPaid)
    else inv
  }

  /**
   * With a valid amount on an invoice whose paid amount is not negative, the
   * "leave it" branch never fires: the invoice ends `paid` or
   * `partially_paid`, never paid beyond its total, and only its status and
   * paid amount change.
   */
  lemma PaymentBounds(inv: Invoice, amount: Money)
    requires ValidAmount(amount) && inv.paidAmount >= 0.0
    ensures var r := ApplyPayment(inv, amount);
      && r.paidAmount <= r.totalAmount
      && Outstanding(r) >= 0.0
      && (r.status == Paid || r.status == PartiallyPaid)
      && r == inv.(status := r.status, paidAmount := r.paidAmount)
  {
  }

  /** A payment that reaches the total leaves nothing outstanding. */
  lemma FullPaymentClearsOutstanding(inv: Invoice, amount: Money)
    requires inv.paidAmount + amount >= inv.totalAmount
    ensures Outstanding(ApplyPayment(inv, amount)) == 0.0
  {
  }

  /** A partial payment lowers the outstanding amount by exactly the amount paid. */
  lemma PartialPaymentReducesOutstanding(inv: Invoice, amount: Money)
    requires 0.0 < inv.paidAmount + amount < inv.totalAmount
    ensures Outstanding(ApplyPayment(inv, amount)) == Outstanding(inv) - amount
  {
  }

  /** Paying more on a fully paid invoice changes nothing. */
  lemma PaidInvoiceStaysPaid(inv: Invoice, amount: Money)
    requires inv.status == Paid && inv.paidAmount == inv.totalAmount && ValidAmount(amount)
    ensures ApplyPayment(inv, amount) == inv
  {
  }

  /** An invoice created with more paid than its total gets its paid amount lowered to the total by any payment. */
  lemma PaymentOnOverpaidInvoice(inv: Invoice, amount: Money)
    requires inv.paidAmount > inv.totalAmount && amount >= 0.0
    ensures ApplyPayment(inv, amount).paidAmount == inv.totalAmount < inv.paidAmount
  {
  }

  function NewPayment(owner: Id, req: PaymentRequest): Payment
    requires req.paymentDate.Some? && ParsePaymentMethod(req.paymentMethod).Some?
  {
    Payment(owner, req.partyId, req.invoiceId, req.amount, req.paymentDate.value,
            ParsePaymentMethod(req.paymentMethod).value, req.referenceNumber, req.notes)
  }

  /** The note of the ledger entry: the payment's notes, else "Payment", with " for Invoice" when one is linked. */
  function PaymentNote(req: PaymentRequest): string
  {
    if req.notes.Some? then req.notes.value
    else if req.invoiceId.Some? then "Payment for Invoice"
    else "Payment"
  }

  /** The one ledger entry of the payment: a debit of its amount, on its date, referencing it. */
  function DebitEntry(owner: Id, req: PaymentRequest, paymentId: Id): Transaction
    requires req.paymentDate.Some?
  {
    Transaction(owner, req.partyId, Debit, req.amount, req.paymentDate.value, Some(PaymentNote(req)), PaymentRef(paymentId))
  }

  /** The invoices after the payment: only the linked invoice, if any, changes. */
  function InvoicesAfter(invoices: seq<Row<Invoice>>, invoiceId: Option<Id>, amount: Money): seq<Row<Invoice>>
  {
    match invoiceId
    case None => invoices
    case Some(id) =>
      match Find(invoices, id)
      case None => invoices
      case Some(inv) => Replace(invoices, id, ApplyPayment(inv, amount))
  }

  /** The linked invoice reads back with the payment applied, and every other invoice is as it was. */
  lemma InvoicesAfterFind(invoices: seq<Row<Invoice>>, id: Id, amount: Money, other: Id)
    requires Find(invoices, id).Some?
    ensures Find(InvoicesAfter(invoices, Some(id), amount), id) == Some(ApplyPayment(Find(invoices, id).value, amount))
    ensures other != id ==> Find(InvoicesAfter(invoices, Some(id), amount), other) == Find(invoices, other)
  {
    FindReplaced(invoices, id, ApplyPayment(Find(invoices, id).value, amount));
    if other != id {
      FindReplaceOther(invoices, id, ApplyPayment(Find(invoices, id).value, amount), other);
    }
  }

  /** The party's balance rises by the amount: the debit entry is the party's own. */
  lemma PaymentRaisesBalance(party: Row<Party>, txns: seq<Row<Transaction>>, owner: Id, req: PaymentRequest, paymentId: Id, k: Id)
    requires req.paymentDate.Some? && req.partyId == party.id
    ensures PartyBalance(party, txns + [Row(k, DebitEntry(owner, req, paymentId))]) == PartyBalance(party, txns) + req.amount
  {
    PartyBalanceAppend(party, txns, Row(k, DebitEntry(owner, req, paymentId)));
  }

  /**
   * `PaymentController::store`. On success the new payment's id is returned,
   * the payment row and the debit entry are appended and only the linked
   * invoice changes; a refused request changes nothing.
   */
  method StorePayment(db: Db, owner: Id, req: PaymentRequest) returns (r: Result<Id, Error>)
    requires Tables.Valid(db.payments) && Tables.Valid(db.invoices) && Tables.Valid(db.transactions)
    modifies db`payments, db`invoices, db`transactions
    ensures Tables.Valid(db.payments) && Tables.Valid(db.invoices) && Tables.Valid(db.transactions)
    ensures r.Failure? <==> !ValidPaymentRequest(old(db.parties.rows), old(db.invoices.rows), req)
    ensures r.Failure? ==> r.error == ValidationFailed && unchanged(db`payments, db`invoices, db`transactions)
    ensures r.Success? ==> req.paymentDate.Some? && ParsePaymentMethod(req.paymentMethod).Some?
    ensures r.Success? ==> r.value == old(db.payments.nextId) && db.payments == Insert(old(db.payments), NewPayment(owner, req))
    ensures r.Success? ==> db.invoices == Table(InvoicesAfter(old(db.invoices.rows), req.invoiceId, req.amount), old(db.invoices.nextId))
    ensures r.Success? ==> db.transactions == Insert(old(db.transactions), DebitEntry(owner, req, r.value))
  {
    if !ValidPaymentRequest(db.parties.rows, db.invoices.rows, req) {
      return Failure(ValidationFailed);
    }
    var id := db.payments.nextId;
    db.payments := Insert(db.payments, NewPayment(owner, req));
    if req.invoiceId.Some? {
      var inv := Find(db.invoices.rows, req.invoiceId.value).value;
      ReplaceValid(db.invoices, req.invoiceId.value, ApplyPayment(inv, req.amount));
      db.invoices := Table(Replace(db.invoices.rows, req.invoiceId.value, ApplyPayment(inv, req.amount)), db.invoices.nextId);
    }
    var _ := db.AddTransaction(DebitEntry(owner, req, id));
    r := Success(id);
  }
}
