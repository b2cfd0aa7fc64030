/**
 * The party ledger (`TransactionController`): listing the caller's entries
 * with optional filters, newest first; recording a manual entry; showing,
 * partially updating and deleting one of the caller's entries. Every action
 * on one entry answers "not found" for an id that is missing or another
 * user's, and then changes nothing.
 */
module Transactions {
  import opened Wrappers
  import opened Tables
  import opened Records
  import Sorting
  import opened Queries
  import opened Balances
  import opened Store

  /**
   * The query string of `index`. Each filter is applied only when it is given
   * and truthy in PHP terms: a party id of 0 and a type of "" or "0" are
   * ignored.
   */
  datatype TxnFilter = TxnFilter(partyId: Option<Id>, kind: Option<string>, startDate: Option<Day>, endDate: Option<Day>)

  predicate PartyFilterOn(f: TxnFilter) { f.partyId.Some? && f.partyId.value != 0 }
  predicate KindFilterOn(f: TxnFilter) { f.kind.Some? && Truthy(f.kind.value) }

  function TxnOwner(t: Transaction): Id { t.owner }
  function TxnDate(t: Transaction): Day { t.date }

  /** `where('user_id', owner)`. */
  function OwnedBy(owner: Id): Row<Transaction> -> bool
  {
    (t: Row<Transaction>) => t.val.owner == owner
  }

  /** `where('party_id', ...)` when that filter is on; otherwise every row passes. */
  function PartyClause(f: TxnFilter): Row<Transaction> -> bool
  {
    (t: Row<Transaction>) => !PartyFilterOn(f) || t.val.partyId == f.partyId.value
  }

  /** `where('type', ...)`: the stored type compared with the given string, so an unknown type matches nothing. */
  function KindClause(f: TxnFilter): Row<Transaction> -> bool
  {
    (t: Row<Transaction>) => !KindFilterOn(f) || TxnTypeName(t.val.kind) == f.kind.value
  }

  function FromClause(f: TxnFilter): Row<Transaction> -> bool
  {
    (t: Row<Transaction>) => f.startDate.None? || t.val.date >= f.startDate.value
  }

  function ToClause(f: TxnFilter): Row<Transaction> -> bool
  {
    (t: Row<Transaction>) => f.endDate.None? || t.val.date <= f.endDate.value
  }

  /** The whole query of `index`. */
  function TxnMatches(owner: Id, f: TxnFilter): Row<Transaction> -> bool
  {
    And(And(And(And(OwnedBy(owner), PartyClause(f)), KindClause(f)), FromClause(f)), ToClause(f))
  }

  /**
   * `index`: exactly the caller's entries that pass every filter that is on
   * (inclusive date bounds), ordered by date, newest first, and by creation,
   * latest first, on the same date.
   */
  method IndexTransactions(db: Db, owner: Id, f: TxnFilter) returns (r: seq<Row<Transaction>>)
    ensures multiset(r) == multiset(Select(db.transactions.rows, TxnMatches(owner, f)))
    ensures Sorting.SortedBy(NewestFirst(TxnDate), r)
  {
    var rows := db.transactions.rows;
    var q := Select(rows, OwnedBy(owner));
    q := Where(q, PartyFilterOn(f), PartyClause(f));
    SelectAnd(rows, OwnedBy(owner), PartyClause(f));
    q := Where(q, KindFilterOn(f), KindClause(f));
    SelectAnd(rows, And(OwnedBy(owner), PartyClause(f)), KindClause(f));
    q := Where(q, f.startDate.Some?, FromClause(f));
    SelectAnd(rows, And(And(OwnedBy(owner), PartyClause(f)), KindClause(f)), FromClause(f));
    q := Where(q, f.endDate.Some?, ToClause(f));
    SelectAnd(rows, And(And(And(OwnedBy(owner), PartyClause(f)), KindClause(f)), FromClause(f)), ToClause(f));
    NewestFirstIsTotalPreorder(TxnDate);
    r := Sorting.Sort(NewestFirst(TxnDate), q);
  }

  /**
   * The rows `index` returns, stated directly: the caller's entries passing
   * every filter that is on, the date bounds inclusive.
   */
  lemma IndexedRows(rows: seq<Row<Transaction>>, owner: Id, f: TxnFilter, x: Row<Transaction>)
    ensures x in Select(rows, TxnMatches(owner, f)) <==>
      (&& x in rows && x.val.owner == owner
       && (PartyFilterOn(f) ==> x.val.partyId == f.partyId.value)
       && (KindFilterOn(f) ==> TxnTypeName(x.val.kind) == f.kind.value)
       && (f.startDate.Some? ==> x.val.date >= f.startDate.value)
       && (f.endDate.Some? ==> x.val.date <= f.endDate.value))
  {
  }

  /** The request body of `store`; `date` is None when it is missing or not a date. */
  datatype TxnRequest = TxnRequest(partyId: Id, kind: string, amount: Money, date: Option<Day>, note: Option<string>)

  /**
   * The validator of `store`. `exists:parties,id` looks at every party, so
   * the party does not have to be the caller's.
   */
  predicate ValidTxnRequest(parties: seq<Row<Party>>, req: TxnRequest)
  {
    && Find(parties, req.partyId).Some?
    && ParseTxnType(req.kind).Some?
    && ValidAmount(req.amount)
    && req.date.Some?
    && (req.note.None? || |req.note.value| <= 1000)
  }

  /** The entry `store` writes: the caller's, with reference type `manual`. */
  function ManualEntry(owner: Id, req: TxnRequest): (t: Transaction)
    requires ParseTxnType(req.kind).Some? && req.date.Some?
    ensures t.owner == owner && t.reference == Manual
    ensures TxnTypeName(t.kind) == req.kind
  {
    Transaction(owner, req.partyId, ParseTxnType(req.kind).value, req.amount, req.date.value, req.note, Manual)
  }

  /** A party of another user is accepted: only its existence is checked. */
  lemma StoreAcceptsAnyOwnersParty(parties: seq<Row<Party>>, req: TxnRequest, owner: Id)
    requires Find(parties, req.partyId).Some? && Find(parties, req.partyId).value.owner != owner
    requires ParseTxnType(req.kind).Some? && ValidAmount(req.amount) && req.date.Some? && req.note.None?
    ensures ValidTxnRequest(parties, req)
  {
  }

  /**
   * `store`: a valid request appends exactly one entry and returns its id;
   * a refused one changes nothing.
   */
  method StoreTransaction(db: Db, owner: Id, req: TxnRequest) returns (r: Result<Id, Error>)
    requires Tables.Valid(db.transactions)
    modifies db`transactions
    ensures Tables.Valid(db.transactions)
    ensures r.Failure? <==> !ValidTxnRequest(db.parties.rows, req)
    ensures r.Failure? ==> r.error == ValidationFailed && unchanged(db`transactions)
    ensures r.Success? ==> ParseTxnType(req.kind).Some? && req.date.Some?
    ensures r.Success? ==> r.value == old(db.transactions.nextId) && db.transactions == Insert(old(db.transactions), ManualEntry(owner, req))
  {
    if !ValidTxnRequest(db.parties.rows, req) {
      return Failure(ValidationFailed);
    }
    var id := db.AddTransaction(ManualEntry(owner, req));
    r := Success(id);
  }

  /** A manual entry moves its party's balance by its amount: up for a debit, down for a credit. */
  lemma StoreMovesBalance(party: Row<Party>, txns: seq<Row<Transaction>>, owner: Id, req: TxnRequest, k: Id)
    requires ParseTxnType(req.kind).Some? && req.date.Some? && req.partyId == party.id
    ensures PartyBalance(party, txns + [Row(k, ManualEntry(owner, req))])
         == PartyBalance(party, txns) + (if req.kind == "debit" then req.amount else -req.amount)
  {
    PartyBalanceAppend(party, txns, Row(k, ManualEntry(owner, req)));
  }

  /** `show`: the caller's entry with that id, else not found. */
  function ShowTransaction(rows: seq<Row<Transaction>>, owner: Id, id: Id): (r: Result<Transaction, Error>)
    ensures r.Success? ==> Row(id, r.value) in rows && r.value.owner == owner
    ensures r.Failure? ==> r.error == NotFound
    ensures Ascending(rows) ==>
      (r.Success? <==> exists k :: 0 <= k < |rows| && rows[k].id == id && rows[k].val.owner == owner)
  {
    match FindOwned(rows, id, TxnOwner, owner)
    case Some(t) => Success(t)
    case None => Failure(NotFound)
  }

  /**
   * The body of `update`. A field is None when the request leaves it out;
   * `date` is Some(None) when it is sent but is not a date, and `note` is
   * Some(None) when it is sent as null.
   */
  datatype TxnUpdate = TxnUpdate(
    partyId: Option<Id>, kind: Option<string>, amount: Option<Money>,
    date: Option<Option<Day>>, note: Option<Option<string>>)

  /** The validator of `update`: every field that is sent must pass its rule. */
  predicate ValidTxnUpdate(parties: seq<Row<Party>>, u: TxnUpdate)
  {
    && (u.partyId.None? || Find(parties, u.partyId.value).Some?)
    && (u.kind.None? || ParseTxnType(u.kind.value).Some?)
    && (u.amount.None? || ValidAmount(u.amount.value))
    && (u.date.None? || u.date.value.Some?)
    && (u.note.None? || u.note.value.None? || |u.note.value.value| <= 1000)
  }

  /** `update($request->only(...))`: the sent fields replace the stored ones. */
  function ApplyTxnUpdate(t: Transaction, u: TxnUpdate): (r: Transaction)
    requires u.kind.None? || ParseTxnType(u.kind.value).Some?
    requires u.date.None? || u.date.value.Some?
    ensures r.owner == t.owner && r.reference == t.reference
  {
    Transaction(
      t.owner,
      u.partyId.GetOr(t.partyId),
      if u.kind.Some? then ParseTxnType(u.kind.value).value else t.kind,
      u.amount.GetOr(t.amount),
      if u.date.Some? then u.date.value.value else t.date,
      u.note.GetOr(t.note),
      t.reference)
  }

  /** An update that sends nothing changes nothing. */
  lemma EmptyUpdateKeepsEntry(t: Transaction)
    ensures ApplyTxnUpdate(t, TxnUpdate(None, None, None, None, None)) == t
  {
  }

  /** Sending the same update twice is the same as sending it once. */
  lemma UpdateIdempotent(t: Transaction, u: TxnUpdate)
    requires u.kind.None? || ParseTxnType(u.kind.value).Some?
    requires u.date.None? || u.date.value.Some?
    ensures ApplyTxnUpdate(ApplyTxnUpdate(t, u), u) == ApplyTxnUpdate(t, u)
  {
  }

  /** A field that is not sent keeps its value; a sent field reads back as sent. */
  lemma UpdateOnlySentFields(t: Transaction, u: TxnUpdate)
    requires u.kind.None? || ParseTxnType(u.kind.value).Some?
    requires u.date.None? || u.date.value.Some?
    ensures var r := ApplyTxnUpdate(t, u);
      && (u.partyId.None? ==> r.partyId == t.partyId) && (u.partyId.Some? ==> r.partyId == u.partyId.value)
      && (u.kind.None? ==> r.kind == t.kind) && (u.kind.Some? ==> TxnTypeName(r.kind) == u.kind.value)
      && (u.amount.None? ==> r.amount == t.amount) && (u.amount.Some? ==> r.amount == u.amount.value)
      && (u.date.None? ==> r.date == t.date) && (u.date.Some? ==> Some(r.date) == u.date.value)
      && (u.note.None? ==> r.note == t.note) && (u.note.Some? ==> r.note == u.note.value)
  {
  }

  /**
   * `update`: not found first (nothing changes), then the validator (nothing
   * changes); otherwise the entry, in its place and under its id, becomes
   * the updated entry, which is returned.
   */
  method UpdateTransaction(db: Db, owner: Id, id: Id, u: TxnUpdate) returns (r: Result<Transaction, Error>)
    requires Tables.Valid(db.transactions)
    modifies db`transactions
    ensures Tables.Valid(db.transactions)
    ensures r.Failure? ==> unchanged(db`transactions)
    ensures r == Failure(NotFound) <==> FindOwned(old(db.transactions.rows), id, TxnOwner, owner).None?
    ensures r == Failure(ValidationFailed) <==>
      FindOwned(old(db.transactions.rows), id, TxnOwner, owner).Some? && !ValidTxnUpdate(db.parties.rows, u)
    ensures r.Success? ==> ValidTxnUpdate(db.parties.rows, u) && FindOwned(old(db.transactions.rows), id, TxnOwner, owner).Some?
    ensures r.Success? ==>
      && r.value == ApplyTxnUpdate(FindOwned(old(db.transactions.rows), id, TxnOwner, owner).value, u)
      && db.transactions == Table(Replace(old(db.transactions.rows), id, r.value), old(db.transactions.nextId))
  {
    var found := FindOwned(db.transactions.rows, id, TxnOwner, owner);
    if found.None? {
      return Failure(NotFound);
    }
    if !ValidTxnUpdate(db.parties.rows, u) {
      return Failure(ValidationFailed);
    }
    var t := ApplyTxnUpdate(found.value, u);
    ReplaceValid(db.transactions, id, t);
    db.transactions := Table(Replace(db.transactions.rows, id, t), db.transactions.nextId);
    r := Success(t);
  }

  /** `destroy`: not found changes nothing; otherwise exactly that entry is deleted. */
  method DestroyTransaction(db: Db, owner: Id, id: Id) returns (r: Option<Error>)
    requires Tables.Valid(db.transactions)
    modifies db`transactions
    ensures Tables.Valid(db.transactions)
    ensures r.Some? <==> FindOwned(old(db.transactions.rows), id, TxnOwner, owner).None?
    ensures r.Some? ==> r.value == NotFound && unchanged(db`transactions)
    ensures r.None? ==> db.transactions == Table(Remove(old(db.transactions.rows), id), old(db.transactions.nextId))
  {
    if FindOwned(db.transactions.rows, id, TxnOwner, owner).None? {
      return Some(NotFound);
    }
    RemoveValid(db.transactions, id);
    db.transactions := Table(Remove(db.transactions.rows, id), db.transactions.nextId);
    r := None;
  }

  /**
   * What `destroy` leaves: the other entries, in order, and the party the
   * deleted entry belonged to has its effect taken back out of its balance.
   */
  lemma DestroyRemovesOneEntry(rows: seq<Row<Transaction>>, owner: Id, id: Id, party: Row<Party>)
    requires Ascending(rows) && FindOwned(rows, id, TxnOwner, owner).Some?
    ensures exists k :: (0 <= k < |rows| && rows[k] == Row(id, FindOwned(rows, id, TxnOwner, owner).value)
                         && Remove(rows, id) == rows[..k] + rows[k + 1..]
                         && PartyBalance(party, Remove(rows, id))
                            == PartyBalance(party, rows) - PartyEffect(party.id, rows[k].val))
  {
    RemoveFound(rows, id);
    var k :| 0 <= k < |rows| && rows[k] == Row(id, Find(rows, id).value) && Remove(rows, id) == rows[..k] + rows[k + 1..];
    PartyBalanceRemoveAt(party, rows, k);
  }
}
