/**
 * Parties (`PartyController`): the type-filtered, name-ordered listing; the
 * defaults `store` fills in; the partial `update`; and `destroy`, which
 * deletes the party's ledger entries, invoices and payments before the
 * party itself and reports how many of each there were.
 */
module Parties {
  import opened Wrappers
  import opened Tables
  import opened Records
  import Sorting
  import opened Queries
  import opened Text
  import opened Balances
  import opened Store

  function PartyOwner(p: Party): Id { p.owner }
  function PartyName(p: Party): string { p.name }

  /**
   * Whether `index` lists a party of type k for the `type` query value: a
   * missing, falsy or unknown value lists every type, `both` lists only
   * `both`, and `customer` or `supplier` also lists `both`.
   */
  predicate TypeShown(kind: Option<string>, k: PartyType)
  {
    if kind.None? || !Truthy(kind.value) then true
    else match ParsePartyType(kind.value)
      case None => true
      case Some(Both) => k == Both
      case Some(t) => k == t || k == Both
  }

  lemma TypeShownCases(kind: Option<string>, k: PartyType)
    ensures kind == Some("customer") ==> (TypeShown(kind, k) <==> k == Customer || k == Both)
    ensures kind == Some("supplier") ==> (TypeShown(kind, k) <==> k == Supplier || k == Both)
    ensures kind == Some("both") ==> (TypeShown(kind, k) <==> k == Both)
    ensures (kind.None? || ParsePartyType(kind.value).None?) ==> TypeShown(kind, k)
    ensures TypeShown(kind, Both)
  {
  }

  function PartyMatches(owner: Id, kind: Option<string>): Row<Party> -> bool
  {
    (p: Row<Party>) => p.val.owner == owner && TypeShown(kind, p.val.kind)
  }

  /** `index`: the caller's parties the type filter lets through, ordered by name. */
  function IndexParties(rows: seq<Row<Party>>, owner: Id, kind: Option<string>): (r: seq<Row<Party>>)
    ensures multiset(r) == multiset(Select(rows, PartyMatches(owner, kind)))
    ensures forall x :: x in r <==> x in rows && x.val.owner == owner && TypeShown(kind, x.val.kind)
    ensures Sorting.SortedBy(ByName(PartyName), r)
  {
    ByNameIsTotalPreorder(PartyName);
    var q := Select(rows, PartyMatches(owner, kind));
    var r := Sorting.Sort(ByName(PartyName), q);
    forall x ensures x in r <==> x in rows && x.val.owner == owner && TypeShown(kind, x.val.kind) {
      assert x in r <==> x in multiset(q);
      assert x in q <==> x in rows && PartyMatches(owner, kind)(x);
    }
    r
  }

  /** The request body of `store`; strings are as sent. */
  datatype PartyRequest = PartyRequest(
    name: Option<string>, mobile: Option<string>, address: Option<string>, kind: Option<string>,
    openingBalance: Option<Money>, status: Option<string>)

  /** The `required` rule: present and not empty after trimming. */
  predicate Required(s: Option<string>)
  {
    s.Some? && Trim(s.value) != ""
  }

  predicate ValidPartyRequest(req: PartyRequest)
  {
    && Required(req.name) && |req.name.value| <= 255
    && (req.mobile.None? || |req.mobile.value| <= 15)
    && (req.address.None? || |req.address.value| <= 1000)
    && req.kind.Some? && ParsePartyType(req.kind.value).Some?
    && (req.status.None? || ParseActiveStatus(req.status.value).Some?)
  }

  /** The party `store` creates: opening balance 0 and status `active` unless given. */
  function NewParty(owner: Id, req: PartyRequest): (p: Party)
    requires ValidPartyRequest(req)
    ensures p.owner == owner && p.name == req.name.value
    ensures req.openingBalance.None? ==> p.openingBalance == 0.0
    ensures req.openingBalance.Some? ==> p.openingBalance == req.openingBalance.value
    ensures req.status.None? ==> p.status == Active
  {
    Party(owner, req.name.value, req.mobile, req.address, ParsePartyType(req.kind.value).value,
          req.openingBalance.GetOr(0.0),
          if req.status.Some? then ParseActiveStatus(req.status.value).value else Active)
  }

  /** A party created without an opening balance starts at balance 0. */
  lemma NewPartyStartsAtZero(owner: Id, req: PartyRequest, id: Id)
    requires ValidPartyRequest(req) && req.openingBalance.None?
    ensures PartyBalance(Row(id, NewParty(owner, req)), []) == 0.0
  {
    PartyBalanceWithoutTransactions(Row(id, NewParty(owner, req)));
  }

  /** `store`: a valid request appends one party; a refused one changes nothing. */
  method StoreParty(db: Db, owner: Id, req: PartyRequest) returns (r: Result<Id, Error>)
    requires Tables.Valid(db.parties)
    modifies db`parties
    ensures Tables.Valid(db.parties)
    ensures r.Failure? <==> !ValidPartyRequest(req)
    ensures r.Failure? ==> r.error == ValidationFailed && unchanged(db`parties)
    ensures r.Success? ==> ValidPartyRequest(req)
    ensures r.Success? ==> r.value == old(db.parties.nextId) && db.parties == Insert(old(db.parties), NewParty(owner, req))
  {
    if !ValidPartyRequest(req) {
      return Failure(ValidationFailed);
    }
    r := Success(db.parties.nextId);
    db.parties := Insert(db.parties, NewParty(owner, req));
  }

  /**
   * The body of `update`: None for a field left out, Some(None) for a field
   * sent as null. `mobile` and `address` may be null; `opening_balance` and
   * `status` pass the validator as null but their columns refuse null.
   */
  datatype PartyUpdate = PartyUpdate(
    name: Option<string>, mobile: Option<Option<string>>, address: Option<Option<string>>,
    kind: Option<string>, openingBalance: Option<Option<Money>>, status: Option<Option<string>>)

  predicate ValidPartyUpdate(u: PartyUpdate)
  {
    && (u.name.None? || (Required(u.name) && |u.name.value| <= 255))
    && (u.mobile.None? || u.mobile.value.None? || |u.mobile.value.value| <= 15)
    && (u.address.None? || u.address.value.None? || |u.address.value.value| <= 1000)
    && (u.kind.None? || ParsePartyType(u.kind.value).Some?)
    && (u.status.None? || u.status.value.None? || ParseActiveStatus(u.status.value.value).Some?)
  }

  /** A null for a column that is NOT NULL: the database refuses the update. */
  predicate NullIntoNotNull(u: PartyUpdate)
  {
    (u.openingBalance.Some? && u.openingBalance.value.None?) || (u.status.Some? && u.status.value.None?)
  }

  function ApplyPartyUpdate(p: Party, u: PartyUpdate): (r: Party)
    requires ValidPartyUpdate(u) && !NullIntoNotNull(u)
    ensures r.owner == p.owner
  {
    Party(
      p.owner,
      u.name.GetOr(p.name),
      u.mobile.GetOr(p.mobile),
      u.address.GetOr(p.address),
      if u.kind.Some? then ParsePartyType(u.kind.value).value else p.kind,
      if u.openingBalance.Some? then u.openingBalance.value.value else p.openingBalance,
      if u.status.Some? then ParseActiveStatus(u.status.value.value).value else p.status)
  }

  /** A field that is not sent keeps its value; a sent field reads back as sent. */
  lemma UpdateOnlySentFields(p: Party, u: PartyUpdate)
    requires ValidPartyUpdate(u) && !NullIntoNotNull(u)
    ensures var r := ApplyPartyUpdate(p, u);
      && (u.name.None? ==> r.name == p.name) && (u.name.Some? ==> r.name == u.name.value)
      && (u.mobile.None? ==> r.mobile == p.mobile) && (u.mobile.Some? ==> r.mobile == u.mobile.value)
      && (u.address.None? ==> r.address == p.address) && (u.address.Some? ==> r.address == u.address.value)
      && (u.kind.None? ==> r.kind == p.kind)
      && (u.openingBalance.None? ==> r.openingBalance == p.openingBalance)
      && (u.openingBalance.Some? ==> Some(r.openingBalance) == u.openingBalance.value)
      && (u.status.None? ==> r.status == p.status)
  {
  }

  /** Changing the opening balance by d moves the party's balance by d, whatever its ledger. */
  lemma OpeningBalanceShiftsBalance(party: Row<Party>, txns: seq<Row<Transaction>>, u: PartyUpdate)
    requires ValidPartyUpdate(u) && !NullIntoNotNull(u)
    ensures PartyBalance(Row(party.id, ApplyPartyUpdate(party.val, u)), txns)
         == PartyBalance(party, txns) + (ApplyPartyUpdate(party.val, u).openingBalance - party.val.openingBalance)
  {
  }

  /**
   * `update`: not found first (404), then the validator (422), then the
   * database refusing a null (500); each leaves the parties as they were.
   */
  method UpdateParty(db: Db, owner: Id, id: Id, u: PartyUpdate) returns (r: Result<Party, Error>)
    requires Tables.Valid(db.parties)
    modifies db`parties
    ensures Tables.Valid(db.parties)
    ensures r.Failure? ==> unchanged(db`parties)
    ensures r == Failure(NotFound) <==> FindOwned(old(db.parties.rows), id, PartyOwner, owner).None?
    ensures r == Failure(ValidationFailed) <==> FindOwned(old(db.parties.rows), id, PartyOwner, owner).Some? && !ValidPartyUpdate(u)
    ensures r == Failure(Failed) <==>
      FindOwned(old(db.parties.rows), id, PartyOwner, owner).Some? && ValidPartyUpdate(u) && NullIntoNotNull(u)
    ensures r.Success? ==> ValidPartyUpdate(u) && !NullIntoNotNull(u) && FindOwned(old(db.parties.rows), id, PartyOwner, owner).Some?
    ensures r.Success? ==>
      && r.value == ApplyPartyUpdate(FindOwned(old(db.parties.rows), id, PartyOwner, owner).value, u)
      && db.parties == Table(Replace(old(db.parties.rows), id, r.value), old(db.parties.nextId))
  {
    var found := FindOwned(db.parties.rows, id, PartyOwner, owner);
    if found.None? {
      return Failure(NotFound);
    }
    if !ValidPartyUpdate(u) {
      return Failure(ValidationFailed);
    }
    if NullIntoNotNull(u) {
      return Failure(Failed);
    }
    var p := ApplyPartyUpdate(found.value, u);
    ReplaceValid(db.parties, id, p);
    db.parties := Table(Replace(db.parties.rows, id, p), db.parties.nextId);
    r := Success(p);
  }

  /** The `deleted_*` counts `destroy` reports. */
  datatype DeletedCounts = DeletedCounts(transactions: nat, invoices: nat, payments: nat)

  /** `withCount(['transactions', 'invoices', 'payments'])`: the rows with that party id, whoever owns them. */
  function RelatedCounts(txns: seq<Row<Transaction>>, invoices: seq<Row<Invoice>>, payments: seq<Row<Payment>>, partyId: Id): DeletedCounts
  {
    DeletedCounts(Count(txns, OfParty(partyId)), Count(invoices, InvoiceOf(partyId)), Count(payments, PaymentOf(partyId)))
  }

  /**
   * `show`: the owner's party with the number of ledger entries, invoices
   * and payments carrying its id, or not found (404).
   */
  function ShowParty(db: Db, owner: Id, id: Id): (r: Result<(Party, DeletedCounts), Error>)
    reads db
    ensures r.Success? ==> Row(id, r.value.0) in db.parties.rows && r.value.0.owner == owner
    ensures r.Success? ==> r.value.1 == RelatedCounts(db.transactions.rows, db.invoices.rows, db.payments.rows, id)
    ensures r.Failure? ==> r.error == NotFound
    ensures Ascending(db.parties.rows) ==>
      (r.Success? <==> exists k :: 0 <= k < |db.parties.rows| && db.parties.rows[k].id == id && db.parties.rows[k].val.owner == owner)
  {
    match FindOwned(db.parties.rows, id, PartyOwner, owner)
    case Some(p) => Success((p, RelatedCounts(db.transactions.rows, db.invoices.rows, db.payments.rows, id)))
    case None => Failure(NotFound)
  }

  function InvoiceOf(partyId: Id): Row<Invoice> -> bool
  {
    (i: Row<Invoice>) => i.val.partyId == partyId
  }

  function PaymentOf(partyId: Id): Row<Payment> -> bool
  {
    (p: Row<Payment>) => p.val.partyId == partyId
  }

  /** Whether an invoice id names one of the party's invoices. */
  predicate IsPartyInvoice(invoices: seq<Row<Invoice>>, partyId: Id, invoiceId: Id)
  {
    Find(invoices, invoiceId).Some? && Find(invoices, invoiceId).value.partyId == partyId
  }

  /** `invoice_items.invoice_id` cascades: an item goes with its invoice. */
  function ItemKept(invoices: seq<Row<Invoice>>, partyId: Id): Row<InvoiceItem> -> bool
  {
    (it: Row<InvoiceItem>) => !IsPartyInvoice(invoices, partyId, it.val.invoiceId)
  }

  /** `payments.invoice_id` is set null when its invoice is deleted. */
  function Detach(invoices: seq<Row<Invoice>>, partyId: Id, p: Row<Payment>): (r: Row<Payment>)
    ensures r.id == p.id && r.val.partyId == p.val.partyId
  {
    if p.val.invoiceId.Some? && IsPartyInvoice(invoices, partyId, p.val.invoiceId.value)
    then Row(p.id, p.val.(invoiceId := None))
    else p
  }

  function DetachAll(invoices: seq<Row<Invoice>>, partyId: Id, rows: seq<Row<Payment>>): (r: seq<Row<Payment>>)
    ensures |r| == |rows| && forall i :: 0 <= i < |rows| ==> r[i] == Detach(invoices, partyId, rows[i])
  {
    seq(|rows|, i requires 0 <= i < |rows| => Detach(invoices, partyId, rows[i]))
  }

  lemma DetachAllValid(invoices: seq<Row<Invoice>>, partyId: Id, t: Table<Payment>)
    requires Tables.Valid(t)
    ensures Tables.Valid(Table(DetachAll(invoices, partyId, t.rows), t.nextId))
  {
  }

  /** `$party->transactions()->delete()`: every ledger entry with that party id, whoever owns it. */
  method DeleteLedgerOf(db: Db, partyId: Id)
    requires Tables.Valid(db.transactions)
    modifies db`transactions
    ensures Tables.Valid(db.transactions)
    ensures db.transactions == Table(Select(old(db.transactions.rows), Not(OfParty(partyId))), old(db.transactions.nextId))
  {
    SelectValid(db.transactions, Not(OfParty(partyId)));
    db.transactions := Table(Select(db.transactions.rows, Not(OfParty(partyId))), db.transactions.nextId);
  }

  /** `$party->payments()->delete()`. */
  method DeletePaymentsOf(db: Db, partyId: Id)
    requires Tables.Valid(db.payments)
    modifies db`payments
    ensures Tables.Valid(db.payments)
    ensures db.payments == Table(Select(old(db.payments.rows), Not(PaymentOf(partyId))), old(db.payments.nextId))
  {
    SelectValid(db.payments, Not(PaymentOf(partyId)));
    db.payments := Table(Select(db.payments.rows, Not(PaymentOf(partyId))), db.payments.nextId);
  }

  /**
   * `$party->invoices()->delete()` with the foreign keys' effects: the
   * party's invoices go, their items go with them, and payments (of any
   * party) linked to them lose the link.
   */
  method DeleteInvoicesOf(db: Db, partyId: Id)
    requires Tables.Valid(db.invoices) && Tables.Valid(db.invoiceItems) && Tables.Valid(db.payments)
    modifies db`invoices, db`invoiceItems, db`payments
    ensures Tables.Valid(db.invoices) && Tables.Valid(db.invoiceItems) && Tables.Valid(db.payments)
    ensures db.invoices == Table(Select(old(db.invoices.rows), Not(InvoiceOf(partyId))), old(db.invoices.nextId))
    ensures db.invoiceItems == Table(Select(old(db.invoiceItems.rows), ItemKept(old(db.invoices.rows), partyId)), old(db.invoiceItems.nextId))
    ensures db.payments == Table(DetachAll(old(db.invoices.rows), partyId, old(db.payments.rows)), old(db.payments.nextId))
  {
    var invoices := db.invoices.rows;
    SelectValid(db.invoiceItems, ItemKept(invoices, partyId));
    db.invoiceItems := Table(Select(db.invoiceItems.rows, ItemKept(invoices, partyId)), db.invoiceItems.nextId);
    DetachAllValid(invoices, partyId, db.payments);
    db.payments := Table(DetachAll(invoices, partyId, db.payments.rows), db.payments.nextId);
    SelectValid(db.invoices, Not(InvoiceOf(partyId)));
    db.invoices := Table(Select(invoices, Not(InvoiceOf(partyId))), db.invoices.nextId);
  }

  /** The party's invoices (with their items and the links to them), then its payments. */
  method DeleteInvoicesAndPaymentsOf(db: Db, partyId: Id)
    requires Tables.Valid(db.invoices) && Tables.Valid(db.invoiceItems) && Tables.Valid(db.payments)
    modifies db`invoices, db`invoiceItems, db`payments
    ensures Tables.Valid(db.invoices) && Tables.Valid(db.invoiceItems) && Tables.Valid(db.payments)
    ensures db.invoices == Table(Select(old(db.invoices.rows), Not(InvoiceOf(partyId))), old(db.invoices.nextId))
    ensures db.invoiceItems == Table(Select(old(db.invoiceItems.rows), ItemKept(old(db.invoices.rows), partyId)), old(db.invoiceItems.nextId))
    ensures db.payments == Table(Select(DetachAll(old(db.invoices.rows), partyId, old(db.payments.rows)), Not(PaymentOf(partyId))), old(db.payments.nextId))
  {
    DeleteInvoicesOf(db, partyId);
    DeletePaymentsOf(db, partyId);
  }

  /**
   * The deletions of `destroy`, once the party is known to be the caller's:
   * the counts are taken first; then the party's ledger entries, its
   * invoices (with their items, detaching other payments from them), its
   * payments and finally the party are deleted. The source skips a delete
   * whose count is 0; such a delete would match no row, so it is not a
   * separate branch here.
   */
  method DeleteParty(db: Db, id: Id) returns (counts: DeletedCounts)
    requires Tables.Valid(db.parties) && Tables.Valid(db.transactions) && Tables.Valid(db.invoices)
    requires Tables.Valid(db.invoiceItems) && Tables.Valid(db.payments)
    modifies db`parties, db`transactions, db`invoices, db`invoiceItems, db`payments
    ensures Tables.Valid(db.parties) && Tables.Valid(db.transactions) && Tables.Valid(db.invoices)
    ensures Tables.Valid(db.invoiceItems) && Tables.Valid(db.payments)
    ensures counts == RelatedCounts(old(db.transactions.rows), old(db.invoices.rows), old(db.payments.rows), id)
    ensures db.transactions == Table(Select(old(db.transactions.rows), Not(OfParty(id))), old(db.transactions.nextId))
    ensures db.invoices == Table(Select(old(db.invoices.rows), Not(InvoiceOf(id))), old(db.invoices.nextId))
    ensures db.invoiceItems == Table(Select(old(db.invoiceItems.rows), ItemKept(old(db.invoices.rows), id)), old(db.invoiceItems.nextId))
    ensures db.payments == Table(Select(DetachAll(old(db.invoices.rows), id, old(db.payments.rows)), Not(PaymentOf(id))), old(db.payments.nextId))
    ensures db.parties == Table(Remove(old(db.parties.rows), id), old(db.parties.nextId))
  {
    counts := RelatedCounts(db.transactions.rows, db.invoices.rows, db.payments.rows, id);
    DeleteLedgerOf(db, id);
    DeleteInvoicesAndPaymentsOf(db, id);
    RemoveValid(db.parties, id);
    db.parties := Table(Remove(db.parties.rows, id), db.parties.nextId);
  }

  /** `destroy`: not found (nothing changes), or the deletions above and their counts. */
  method DestroyParty(db: Db, owner: Id, id: Id) returns (r: Result<DeletedCounts, Error>)
    requires Tables.Valid(db.parties) && Tables.Valid(db.transactions) && Tables.Valid(db.invoices)
    requires Tables.Valid(db.invoiceItems) && Tables.Valid(db.payments)
    modifies db`parties, db`transactions, db`invoices, db`invoiceItems, db`payments
    ensures Tables.Valid(db.parties) && Tables.Valid(db.transactions) && Tables.Valid(db.invoices)
    ensures Tables.Valid(db.invoiceItems) && Tables.Valid(db.payments)
    ensures r.Failure? <==> FindOwned(old(db.parties.rows), id, PartyOwner, owner).None?
    ensures r.Failure? ==> r.error == NotFound && unchanged(db`parties, db`transactions, db`invoices, db`invoiceItems, db`payments)
    ensures r.Success? ==> r.value == RelatedCounts(old(db.transactions.rows), old(db.invoices.rows), old(db.payments.rows), id)
    ensures r.Success? ==> db.transactions == Table(Select(old(db.transactions.rows), Not(OfParty(id))), old(db.transactions.nextId))
    ensures r.Success? ==> db.invoices == Table(Select(old(db.invoices.rows), Not(InvoiceOf(id))), old(db.invoices.nextId))
    ensures r.Success? ==>
      db.invoiceItems == Table(Select(old(db.invoiceItems.rows), ItemKept(old(db.invoices.rows), id)), old(db.invoiceItems.nextId))
    ensures r.Success? ==>
      db.payments == Table(Select(DetachAll(old(db.invoices.rows), id, old(db.payments.rows)), Not(PaymentOf(id))), old(db.payments.nextId))
    ensures r.Success? ==> db.parties == Table(Remove(old(db.parties.rows), id), old(db.parties.nextId))
  {
    if FindOwned(db.parties.rows, id, PartyOwner, owner).None? {
      return Failure(NotFound);
    }
    var counts := DeleteParty(db, id);
    r := Success(counts);
  }

  /** The reported count is exactly how many ledger entries disappear; none of the party's remain. */
  lemma DestroyCountsMatch(txns: seq<Row<Transaction>>, id: Id)
    ensures |Select(txns, Not(OfParty(id)))| == |txns| - Count(txns, OfParty(id))
    ensures forall x :: x in Select(txns, Not(OfParty(id))) ==> x.val.partyId != id
  {
    SelectSplitCount(txns, OfParty(id));
  }

  /** Every other party's balance is the same after the party's ledger entries are deleted. */
  lemma DestroyKeepsOtherBalances(other: Row<Party>, txns: seq<Row<Transaction>>, id: Id)
    requires other.id != id
    ensures PartyBalance(other, Select(txns, Not(OfParty(id)))) == PartyBalance(other, txns)
  {
    var kept := Select(txns, Not(OfParty(id)));
    PartyBalanceOwnRows(other, txns);
    PartyBalanceOwnRows(other, kept);
    SelectSelect(txns, Not(OfParty(id)), OfParty(other.id), OfParty(other.id));
  }

  /**
   * Another party's payment survives `destroy` and keeps everything but,
   * when it was linked to one of the deleted invoices, that link.
   */
  lemma DestroyKeepsOtherPayments(invoices: seq<Row<Invoice>>, payments: seq<Row<Payment>>, id: Id, k: nat)
    requires k < |payments| && payments[k].val.partyId != id
    ensures var kept := Select(DetachAll(invoices, id, payments), Not(PaymentOf(id)));
      && Detach(invoices, id, payments[k]) in kept
      && Detach(invoices, id, payments[k]).val == payments[k].val.(invoiceId := Detach(invoices, id, payments[k]).val.invoiceId)
      && (Detach(invoices, id, payments[k]) != payments[k] <==>
            payments[k].val.invoiceId.Some? && IsPartyInvoice(invoices, id, payments[k].val.invoiceId.value))
  {
    var d := DetachAll(invoices, id, payments);
    assert d[k] in d;
  }
}
