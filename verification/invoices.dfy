/**
 * Invoice creation (`InvoiceController::store`): the request is validated,
 * the line items are folded into subtotal, tax and total, the payment status
 * is resolved from the paid amount, an invoice number is built from today's
 * date and the owner's invoice count, and then, all or nothing, the invoice,
 * one item row and one `out` stock movement per line, the stock decrements
 * and one `credit` ledger entry are written.
 */
module Invoices {
  import opened Wrappers
  import opened Tables
  import opened Records
  import opened Sums
  import opened Text
  import opened Calendar
  import opened Balances
  import opened Store

  /** One entry of the `items` array of the request. */
  datatype ItemRequest = ItemRequest(productId: Id, quantity: int, unitPrice: Money, taxRate: Option<real>)

  /** The request body; `invoiceDate` is None when it is missing or not a date. */
  datatype InvoiceRequest = InvoiceRequest(
    partyId: Id, invoiceDate: Option<Day>, items: seq<ItemRequest>,
    paymentStatus: Option<string>, paidAmount: Option<Money>, notes: Option<string>)

  /** The rules of `items.*`: the product exists, quantity ≥ 1, unit price ≥ 0, rate in [0, 100] when given. */
  predicate ValidItem(products: seq<Row<Product>>, item: ItemRequest)
  {
    && Find(products, item.productId).Some?
    && item.quantity >= 1
    && item.unitPrice >= 0.0
    && (item.taxRate.None? || 0.0 <= item.taxRate.value <= 100.0)
  }

  /** The validator of `store`: `exists` looks at every row of the table, whoever owns it. */
  predicate ValidInvoiceRequest(parties: seq<Row<Party>>, products: seq<Row<Product>>, req: InvoiceRequest)
  {
    && Find(parties, req.partyId).Some?
    && req.invoiceDate.Some?
    && |req.items| >= 1
    && (forall i :: 0 <= i < |req.items| ==> ValidItem(products, req.items[i]))
    && (req.paymentStatus.None? || ParsePaymentStatus(req.paymentStatus.value).Some?)
    && (req.paidAmount.None? || req.paidAmount.value >= 0.0)
  }

  /** `tax_rate ?? 0`. */
  function Rate(item: ItemRequest): real
  {
    item.taxRate.GetOr(0.0)
  }

  function ItemSubtotal(item: ItemRequest): Money
  {
    item.quantity as real * item.unitPrice
  }

  function ItemTax(item: ItemRequest): Money
  {
    ItemSubtotal(item) * Rate(item) / 100.0
  }

  function ItemTotal(item: ItemRequest): Money
  {
    ItemSubtotal(item) + ItemTax(item)
  }

  /** Σ quantity × unit price. */
  function Subtotal(items: seq<ItemRequest>): Money
  {
    Sum(items, ItemSubtotal)
  }

  /** Σ quantity × unit price × rate / 100, a missing rate counting as 0. */
  function TaxTotal(items: seq<ItemRequest>): Money
  {
    Sum(items, ItemTax)
  }

  /** `total_amount` = subtotal + tax. */
  function InvoiceTotal(items: seq<ItemRequest>): Money
  {
    Subtotal(items) + TaxTotal(items)
  }

  /** The first loop of `store`: accumulates subtotal and tax over the items. */
  method ComputeTotals(items: seq<ItemRequest>) returns (subtotal: Money, tax: Money, total: Money)
    ensures subtotal == Subtotal(items)
    ensures tax == TaxTotal(items)
    ensures total == subtotal + tax == InvoiceTotal(items)
  {
    subtotal, tax := 0.0, 0.0;
    var i := 0;
    while i < |items|
      invariant 0 <= i <= |items|
      invariant subtotal == Sum(items[..i], ItemSubtotal)
      invariant tax == Sum(items[..i], ItemTax)
    {
      assert items[..i + 1] == items[..i] + [items[i]];
      SumSnoc(items[..i], items[i], ItemSubtotal);
      SumSnoc(items[..i], items[i], ItemTax);
      subtotal := subtotal + ItemSubtotal(items[i]);
      tax := tax + ItemTax(items[i]);
      i := i + 1;
    }
    assert items[..i] == items;
    total := subtotal + tax;
  }

  /** With nonnegative quantities, prices and rates, no total is negative. */
  lemma TotalsNonNegative(parties: seq<Row<Party>>, products: seq<Row<Product>>, req: InvoiceRequest)
    requires ValidInvoiceRequest(parties, products, req)
    ensures Subtotal(req.items) >= 0.0 && TaxTotal(req.items) >= 0.0
  {
    forall x | x in req.items ensures ItemSubtotal(x) >= 0.0 && ItemTax(x) >= 0.0 {
      var k :| 0 <= k < |req.items| && req.items[k] == x;
      assert ValidItem(products, req.items[k]);
    }
    SumNonNegative(req.items, ItemSubtotal);
    SumNonNegative(req.items, ItemTax);
  }

  /**
   * The payment status given at creation: a paid amount reaching the total
   * wins, then a positive one, and otherwise the caller's status (default
   * `unpaid`) is kept as supplied.
   */
  function ResolveStatus(requested: Option<PaymentStatus>, paid: Money, total: Money): (r: PaymentStatus)
    ensures paid >= total ==> r == Paid
    ensures 0.0 < paid < total ==> r == PartiallyPaid
    ensures paid <= 0.0 && paid < total ==> r == requested.GetOr(Unpaid)
  {
    if paid >= total then Paid
    else if paid > 0.0 then PartiallyPaid
    else requested.GetOr(Unpaid)
  }

  /** An invoice whose total is 0 is `paid` whatever was asked. */
  lemma ZeroTotalIsPaid(requested: Option<PaymentStatus>)
    ensures ResolveStatus(requested, 0.0, 0.0) == Paid
  {
  }

  /** A caller-supplied `paid` with nothing paid is kept: the invoice is `paid` with its whole total outstanding. */
  lemma CallerPaidStatusKept()
    ensures ResolveStatus(Some(Paid), 0.0, 100.0) == Paid
  {
  }

  /** Two digits of a month or day. */
  function TwoDigits(n: nat): (s: string)
    requires n < 100
    ensures |s| == 2 && AllDigits(s) && ParseNat(s) == n
  {
    NatToStringWidth(n, 2);
    PaddedNatRoundTrip(n, 2);
    PadLeft(NatToString(n), 2, '0')
  }

  /** `date('Ymd')`. */
  function DateStamp(today: CivilDate): (s: string)
    requires ValidDate(today) && FourDigitYear(today)
    ensures |s| == 8 && AllDigits(s)
    ensures ParseNat(s[..4]) == today.year && ParseNat(s[4..6]) == today.month && ParseNat(s[6..]) == today.day
  {
    assert Pow10(3) == 1000 && Pow10(4) == 10000;
    NatToStringWidth(today.year, 4);
    NatToStringAtLeast(today.year, 4);
    ParseNatToString(today.year);
    var year, month, day := NatToString(today.year), TwoDigits(today.month), TwoDigits(today.day);
    AllDigitsConcat(year, month);
    AllDigitsConcat(year + month, day);
    var s := year + month + day;
    assert s[..4] == year && s[4..6] == month && s[6..] == day;
    s
  }

  /** The sequence part: `str_pad(count + 1, 4, '0', STR_PAD_LEFT)`. */
  function Sequence(count: nat): (s: string)
    ensures |s| >= 4 && AllDigits(s) && ParseNat(s) == count + 1
  {
    PaddedNatRoundTrip(count + 1, 4);
    PadLeft(NatToString(count + 1), 4, '0')
  }

  /** "INV-" + YYYYMMDD of today + "-" + the owner's invoice count plus one, padded to four digits. */
  function InvoiceNumber(today: CivilDate, count: nat): string
    requires ValidDate(today) && FourDigitYear(today)
  {
    "INV-" + DateStamp(today) + "-" + Sequence(count)
  }

  /** The number reads back: its prefix, its date and its sequence part, which holds count + 1. */
  lemma InvoiceNumberParts(today: CivilDate, count: nat)
    requires ValidDate(today) && FourDigitYear(today)
    ensures var n := InvoiceNumber(today, count);
      && |n| >= 17 && n[..4] == "INV-" && n[4..12] == DateStamp(today) && n[12] == '-'
      && AllDigits(n[13..]) && ParseNat(n[13..]) == count + 1
  {
    NumberLayout(DateStamp(today), Sequence(count));
  }

  /** Where the parts of an invoice number sit, for any eight-character date part. */
  lemma NumberLayout(date: string, sequence: string)
    requires |date| == 8
    ensures var n := "INV-" + date + "-" + sequence;
      && |n| == 13 + |sequence| && n[..4] == "INV-" && n[4..12] == date && n[12] == '-' && n[13..] == sequence
  {
    var n := "INV-" + date + "-" + sequence;
    assert n[..4] == "INV-";
    assert n[4..12] == date;
    assert n[13..] == sequence;
  }

  /** On one day, different counts give different numbers. */
  lemma InvoiceNumberInjective(today: CivilDate, c1: nat, c2: nat)
    requires ValidDate(today) && FourDigitYear(today)
    requires InvoiceNumber(today, c1) == InvoiceNumber(today, c2)
    ensures c1 == c2
  {
    InvoiceNumberParts(today, c1);
    InvoiceNumberParts(today, c2);
  }

  function OwnedInvoice(owner: Id): Row<Invoice> -> bool
  {
    (r: Row<Invoice>) => r.val.owner == owner
  }

  /** The number the owner's next invoice gets today. */
  function OwnerNumber(invoices: seq<Row<Invoice>>, owner: Id, today: CivilDate): string
    requires ValidDate(today) && FourDigitYear(today)
  {
    InvoiceNumber(today, Count(invoices, OwnedInvoice(owner)))
  }

  /** The `invoice_number` column is unique over all owners. */
  predicate NumberTaken(invoices: seq<Row<Invoice>>, number: string)
  {
    exists i :: 0 <= i < |invoices| && invoices[i].val.number == number
  }

  /**
   * The sequence is counted per owner but the number is unique over all
   * owners: once another owner's first invoice of the day is stored, an owner
   * with no invoices yet is refused the same number.
   */
  lemma FirstInvoicesCollide(invoices: seq<Row<Invoice>>, today: CivilDate, other: Id, owner: Id, k: nat)
    requires ValidDate(today) && FourDigitYear(today)
    requires k < |invoices| && invoices[k].val.owner == other && invoices[k].val.number == InvoiceNumber(today, 0)
    requires Count(invoices, OwnedInvoice(owner)) == 0
    ensures NumberTaken(invoices, OwnerNumber(invoices, owner, today))
  {
  }

  /** The invoice row as created. `paid_amount` is stored as supplied, not clamped to the total. */
  function NewInvoice(owner: Id, req: InvoiceRequest, number: string, subtotal: Money, tax: Money): Invoice
    requires req.invoiceDate.Some?
  {
    var paid := req.paidAmount.GetOr(0.0);
    var requested := if req.paymentStatus.Some? then ParsePaymentStatus(req.paymentStatus.value) else None;
    Invoice(owner, req.partyId, number, req.invoiceDate.value, subtotal, tax, subtotal + tax,
            ResolveStatus(requested, paid, subtotal + tax), paid, req.notes)
  }

  /** An invoice created with more paid than its total is `paid` with a negative outstanding amount. */
  lemma OverpaidAtCreation(owner: Id, req: InvoiceRequest, number: string, subtotal: Money, tax: Money)
    requires req.invoiceDate.Some? && req.paidAmount == Some(subtotal + tax + 50.0)
    ensures NewInvoice(owner, req, number, subtotal, tax).status == Paid
    ensures Outstanding(NewInvoice(owner, req, number, subtotal, tax)) == -50.0
  {
  }

  function ItemRow(invoiceId: Id, item: ItemRequest): InvoiceItem
  {
    InvoiceItem(invoiceId, item.productId, item.quantity, item.unitPrice, Rate(item), ItemTax(item), ItemTotal(item))
  }

  function ItemRows(invoiceId: Id, items: seq<ItemRequest>): (r: seq<InvoiceItem>)
    ensures |r| == |items|
  {
    seq(|items|, k requires 0 <= k < |items| => ItemRow(invoiceId, items[k]))
  }

  function StoredTotal(item: InvoiceItem): Money
  {
    item.total
  }

  /** The stored item totals add up to the invoice's total. */
  lemma ItemTotalsSum(invoiceId: Id, items: seq<ItemRequest>)
    ensures Sum(ItemRows(invoiceId, items), StoredTotal) == Subtotal(items) + TaxTotal(items)
  {
    SumAdd(items, ItemSubtotal, ItemTax, ItemTotal);
    StoredTotalsAre(invoiceId, items);
  }

  lemma {:induction false} StoredTotalsAre(invoiceId: Id, items: seq<ItemRequest>)
    ensures Sum(ItemRows(invoiceId, items), StoredTotal) == Sum(items, ItemTotal)
  {
    if items != [] {
      assert ItemRows(invoiceId, items)[1..] == ItemRows(invoiceId, items[1..]);
      StoredTotalsAre(invoiceId, items[1..]);
    }
  }

  /** Two items worth 100 and 150, the second taxed at 8%: subtotal 250, tax 12, total 262. */
  lemma TwoItemExample()
    ensures var items := [ItemRequest(1, 2, 50.0, None), ItemRequest(2, 3, 50.0, Some(8.0))];
      Subtotal(items) == 250.0 && TaxTotal(items) == 12.0
  {
    var items := [ItemRequest(1, 2, 50.0, None), ItemRequest(2, 3, 50.0, Some(8.0))];
    assert items[1..] == [items[1]];
  }

  function OutMovement(owner: Id, invoiceId: Id, item: ItemRequest): StockMovement
  {
    StockMovement(owner, item.productId, Out, item.quantity, Some(item.unitPrice), InvoiceRef(invoiceId))
  }

  function OutMovements(owner: Id, invoiceId: Id, items: seq<ItemRequest>): (r: seq<StockMovement>)
    ensures |r| == |items|
  {
    seq(|items|, k requires 0 <= k < |items| => OutMovement(owner, invoiceId, items[k]))
  }

  /** Σ of the quantities the items take from product `productId`. */
  function QuantityOf(items: seq<ItemRequest>, productId: Id): int
  {
    if items == [] then 0
    else
      var last := items[|items| - 1];
      QuantityOf(items[..|items| - 1], productId) + (if last.productId == productId then last.quantity else 0)
  }

  /** `$product->decrement('stock_quantity', q)` on the product with that id. */
  function Decrement(rows: seq<Row<Product>>, productId: Id, q: int): (r: seq<Row<Product>>)
    ensures |r| == |rows|
  {
    seq(|rows|, i requires 0 <= i < |rows| =>
      if rows[i].id == productId then Row(rows[i].id, rows[i].val.(stock := rows[i].val.stock - q)) else rows[i])
  }

  /** The products after the item loop, one decrement per item in order. */
  function StockAfter(rows: seq<Row<Product>>, items: seq<ItemRequest>): (r: seq<Row<Product>>)
    ensures |r| == |rows|
  {
    if items == [] then rows
    else
      var last := items[|items| - 1];
      Decrement(StockAfter(rows, items[..|items| - 1]), last.productId, last.quantity)
  }

  /**
   * Every product's stock has dropped by exactly the quantity the items take
   * from it, with no floor at zero, and nothing else about any product changes.
   */
  lemma {:induction false} StockAfterAt(rows: seq<Row<Product>>, items: seq<ItemRequest>, i: nat)
    requires i < |rows|
    ensures StockAfter(rows, items)[i] == Row(rows[i].id, rows[i].val.(stock := rows[i].val.stock - QuantityOf(items, rows[i].id)))
  {
    if items != [] {
      StockAfterAt(rows, items[..|items| - 1], i);
    }
  }

  /** A product none of the items names keeps its stock. */
  lemma {:induction false} QuantityOfAbsent(items: seq<ItemRequest>, productId: Id)
    requires forall k :: 0 <= k < |items| ==> items[k].productId != productId
    ensures QuantityOf(items, productId) == 0
  {
    if items != [] {
      QuantityOfAbsent(items[..|items| - 1], productId);
    }
  }

  /** Three units of product 7 sold as 2 + 1 on two lines take 3 from its stock. */
  lemma SameProductTwice()
    ensures QuantityOf([ItemRequest(7, 2, 10.0, None), ItemRequest(7, 1, 10.0, None)], 7) == 3
  {
    var items := [ItemRequest(7, 2, 10.0, None), ItemRequest(7, 1, 10.0, None)];
    assert items[..1] == [items[0]];
    assert items[..1][..0] == [];
  }

  /** The one ledger entry of the invoice: a credit of its total, on its date, referencing it. */
  function CreditEntry(owner: Id, partyId: Id, total: Money, date: Day, number: string, invoiceId: Id): Transaction
  {
    Transaction(owner, partyId, Credit, total, date, Some("Invoice: " + number), InvoiceRef(invoiceId))
  }

  /** The party's balance falls by the invoice total: the credit entry is the party's own. */
  lemma InvoiceLowersBalance(party: Row<Party>, txns: seq<Row<Transaction>>, owner: Id, total: Money,
                             date: Day, number: string, invoiceId: Id, k: Id)
    ensures PartyBalance(party, txns + [Row(k, CreditEntry(owner, party.id, total, date, number, invoiceId))])
         == PartyBalance(party, txns) - total
  {
    PartyBalanceAppend(party, txns, Row(k, CreditEntry(owner, party.id, total, date, number, invoiceId)));
  }

  lemma ProductsValid(t: Table<Product>, items: seq<ItemRequest>)
    requires Tables.Valid(t)
    ensures Tables.Valid(Table(StockAfter(t.rows, items), t.nextId))
  {
    var r := StockAfter(t.rows, items);
    forall i | 0 <= i < |r| ensures r[i].id == t.rows[i].id {
      StockAfterAt(t.rows, items, i);
    }
  }

  /** One more item: each table takes one more step. */
  lemma ItemsStep(t: Table<InvoiceItem>, rows: seq<Row<Product>>, m: Table<StockMovement>,
                  owner: Id, id: Id, items: seq<ItemRequest>, i: nat)
    requires i < |items|
    ensures InsertAll(t, ItemRows(id, items[..i + 1])) == Insert(InsertAll(t, ItemRows(id, items[..i])), ItemRow(id, items[i]))
    ensures InsertAll(m, OutMovements(owner, id, items[..i + 1]))
         == Insert(InsertAll(m, OutMovements(owner, id, items[..i])), OutMovement(owner, id, items[i]))
    ensures StockAfter(rows, items[..i + 1]) == Decrement(StockAfter(rows, items[..i]), items[i].productId, items[i].quantity)
  {
    assert items[..i + 1][..i] == items[..i];
    assert ItemRows(id, items[..i + 1])[..i] == ItemRows(id, items[..i]);
    assert OutMovements(owner, id, items[..i + 1])[..i] == OutMovements(owner, id, items[..i]);
  }

  /** One pass of the second loop: the item row, the stock decrement and the `out` movement. */
  method WriteItem(db: Db, owner: Id, id: Id, item: ItemRequest)
    modifies db`invoiceItems, db`products, db`movements
    ensures db.invoiceItems == Insert(old(db.invoiceItems), ItemRow(id, item))
    ensures db.products == Table(Decrement(old(db.products.rows), item.productId, item.quantity), old(db.products.nextId))
    ensures db.movements == Insert(old(db.movements), OutMovement(owner, id, item))
  {
    db.invoiceItems := Insert(db.invoiceItems, ItemRow(id, item));
    db.products := Table(Decrement(db.products.rows, item.productId, item.quantity), db.products.nextId);
    db.movements := Insert(db.movements, OutMovement(owner, id, item));
  }

  /**
   * The second loop of `store`: for each item, one item row, the product's
   * stock decremented by its quantity and one `out` movement.
   */
  method WriteItems(db: Db, owner: Id, id: Id, items: seq<ItemRequest>)
    modifies db`invoiceItems, db`products, db`movements
    ensures db.invoiceItems == InsertAll(old(db.invoiceItems), ItemRows(id, items))
    ensures db.products == Table(StockAfter(old(db.products.rows), items), old(db.products.nextId))
    ensures db.movements == InsertAll(old(db.movements), OutMovements(owner, id, items))
  {
    var i := 0;
    while i < |items|
      invariant 0 <= i <= |items|
      invariant db.invoiceItems == InsertAll(old(db.invoiceItems), ItemRows(id, items[..i]))
      invariant db.products == Table(StockAfter(old(db.products.rows), items[..i]), old(db.products.nextId))
      invariant db.movements == InsertAll(old(db.movements), OutMovements(owner, id, items[..i]))
    {
      ItemsStep(old(db.invoiceItems), old(db.products.rows), old(db.movements), owner, id, items, i);
      WriteItem(db, owner, id, items[i]);
      i := i + 1;
    }
    assert items[..i] == items;
  }

  /**
   * The accepted path of `store`, given the number: the totals come from the
   * first loop, and every table is written.
   */
  method WriteInvoice(db: Db, owner: Id, number: string, req: InvoiceRequest) returns (id: Id)
    requires Tables.Valid(db.invoices) && Tables.Valid(db.invoiceItems) && Tables.Valid(db.products)
    requires Tables.Valid(db.movements) && Tables.Valid(db.transactions)
    requires req.invoiceDate.Some?
    modifies db`invoices, db`invoiceItems, db`products, db`movements, db`transactions
    ensures Tables.Valid(db.invoices) && Tables.Valid(db.invoiceItems) && Tables.Valid(db.products)
    ensures Tables.Valid(db.movements) && Tables.Valid(db.transactions)
    ensures id == old(db.invoices.nextId)
    ensures db.invoices == Insert(old(db.invoices), NewInvoice(owner, req, number, Subtotal(req.items), TaxTotal(req.items)))
    ensures db.invoiceItems == InsertAll(old(db.invoiceItems), ItemRows(id, req.items))
    ensures db.products == Table(StockAfter(old(db.products.rows), req.items), old(db.products.nextId))
    ensures db.movements == InsertAll(old(db.movements), OutMovements(owner, id, req.items))
    ensures db.transactions == Insert(old(db.transactions), CreditEntry(owner, req.partyId, InvoiceTotal(req.items),
                                      req.invoiceDate.value, number, id))
  {
    var subtotal, tax, total := ComputeTotals(req.items);
    id := db.invoices.nextId;
    db.invoices := Insert(db.invoices, NewInvoice(owner, req, number, subtotal, tax));
    ghost var products0 := db.products;
    WriteItems(db, owner, id, req.items);
    ProductsValid(products0, req.items);
    db.transactions := Insert(db.transactions, CreditEntry(owner, req.partyId, total, req.invoiceDate.value, number, id));
  }

  /** Why `store` refuses a request, if it does: the validator first, then the unique index on the number. */
  function Refusal(parties: seq<Row<Party>>, products: seq<Row<Product>>, invoices: seq<Row<Invoice>>,
                   owner: Id, today: CivilDate, req: InvoiceRequest): (e: Option<Error>)
    requires ValidDate(today) && FourDigitYear(today)
    ensures e == Some(ValidationFailed) <==> !ValidInvoiceRequest(parties, products, req)
    ensures e == Some(Failed) <==> ValidInvoiceRequest(parties, products, req) && NumberTaken(invoices, OwnerNumber(invoices, owner, today))
    ensures e == None || e == Some(ValidationFailed) || e == Some(Failed)
  {
    if !ValidInvoiceRequest(parties, products, req) then Some(ValidationFailed)
    else if NumberTaken(invoices, OwnerNumber(invoices, owner, today)) then Some(Failed)
    else None
  }

  /**
   * `InvoiceController::store`. On success the new invoice's id is returned
   * and every table holds exactly the rows the specification functions above
   * give; on a refusal no table changes.
   */
  method StoreInvoice(db: Db, owner: Id, today: CivilDate, req: InvoiceRequest) returns (r: Result<Id, Error>)
    requires Tables.Valid(db.invoices) && Tables.Valid(db.invoiceItems) && Tables.Valid(db.products)
    requires Tables.Valid(db.movements) && Tables.Valid(db.transactions)
    requires ValidDate(today) && FourDigitYear(today)
    modifies db`invoices, db`invoiceItems, db`products, db`movements, db`transactions
    ensures Tables.Valid(db.invoices) && Tables.Valid(db.invoiceItems) && Tables.Valid(db.products)
    ensures Tables.Valid(db.movements) && Tables.Valid(db.transactions)
    ensures var e := Refusal(old(db.parties.rows), old(db.products.rows), old(db.invoices.rows), owner, today, req);
      (r.Failure? <==> e.Some?) && (r.Failure? ==> e == Some(r.error))
    ensures r.Failure? ==> unchanged(db`invoices, db`invoiceItems, db`products, db`movements, db`transactions)
    ensures r.Success? ==> req.invoiceDate.Some? && r.value == old(db.invoices.nextId)
    ensures r.Success? ==>
      db.invoices == Insert(old(db.invoices), NewInvoice(owner, req, OwnerNumber(old(db.invoices.rows), owner, today),
                                                         Subtotal(req.items), TaxTotal(req.items)))
    ensures r.Success? ==> db.invoiceItems == InsertAll(old(db.invoiceItems), ItemRows(r.value, req.items))
    ensures r.Success? ==> db.products == Table(StockAfter(old(db.products.rows), req.items), old(db.products.nextId))
    ensures r.Success? ==> db.movements == InsertAll(old(db.movements), OutMovements(owner, r.value, req.items))
    ensures r.Success? ==>
      db.transactions == Insert(old(db.transactions), CreditEntry(owner, req.partyId, InvoiceTotal(req.items),
                                req.invoiceDate.value, OwnerNumber(old(db.invoices.rows), owner, today), r.value))
  {
    var refusal := Refusal(db.parties.rows, db.products.rows, db.invoices.rows, owner, today, req);
    if refusal.Some? {
      // Refused by the validator, or by the unique index, whose rollback leaves every table as it was.
      return Failure(refusal.value);
    }
    var id := WriteInvoice(db, owner, OwnerNumber(db.invoices.rows, owner, today), req);
    r := Success(id);
  }
}
