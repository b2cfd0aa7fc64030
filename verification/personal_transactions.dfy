/**
 * The personal ledger (`PersonalTransactionController`): money given to and
 * received from the caller's personal contacts. Unlike the party ledger,
 * recording an entry checks that the contact is the caller's, and an update
 * can never move an entry to another contact. Every action on one entry
 * answers "not found" for an id that is missing or another user's, and then
 * changes nothing.
 */
module PersonalTransactions {
  import opened Wrappers
  import opened Tables
  import opened Records
  import Sorting
  import opened Queries
  import opened Balances
  import opened Store

  /** The query string of `index`; a contact id of 0 and a type of "" or "0" are ignored, as PHP treats them as false. */
  datatype PersonalFilter = PersonalFilter(contactId: Option<Id>, kind: Option<string>, startDate: Option<Day>, endDate: Option<Day>)

  predicate ContactFilterOn(f: PersonalFilter) { f.contactId.Some? && f.contactId.value != 0 }
  predicate KindFilterOn(f: PersonalFilter) { f.kind.Some? && Truthy(f.kind.value) }

  function EntryOwner(t: PersonalTransaction): Id { t.owner }
  function EntryDate(t: PersonalTransaction): Day { t.date }
  function ContactOwner(c: PersonalContact): Id { c.owner }

  function OwnedBy(owner: Id): Row<PersonalTransaction> -> bool
  {
    (t: Row<PersonalTransaction>) => t.val.owner == owner
  }

  function ContactClause(f: PersonalFilter): Row<PersonalTransaction> -> bool
  {
    (t: Row<PersonalTransaction>) => !ContactFilterOn(f) || t.val.contactId == f.contactId.value
  }

  function KindClause(f: PersonalFilter): Row<PersonalTransaction> -> bool
  {
    (t: Row<PersonalTransaction>) => !KindFilterOn(f) || PersonalTxnTypeName(t.val.kind) == f.kind.value
  }

  function FromClause(f: PersonalFilter): Row<PersonalTransaction> -> bool
  {
    (t: Row<PersonalTransaction>) => f.startDate.None? || t.val.date >= f.startDate.value
  }

  function ToClause(f: PersonalFilter): Row<PersonalTransaction> -> bool
  {
    (t: Row<PersonalTransaction>) => f.endDate.None? || t.val.date <= f.endDate.value
  }

  /** The whole query of `index`. */
  function EntryMatches(owner: Id, f: PersonalFilter): Row<PersonalTransaction> -> bool
  {
    And(And(And(And(OwnedBy(owner), ContactClause(f)), KindClause(f)), FromClause(f)), ToClause(f))
  }

  /** The rows `index` returns, stated directly. */
  lemma IndexedRows(rows: seq<Row<PersonalTransaction>>, owner: Id, f: PersonalFilter, x: Row<PersonalTransaction>)
    ensures x in Select(rows, EntryMatches(owner, f)) <==>
      (&& x in rows && x.val.owner == owner
       && (ContactFilterOn(f) ==> x.val.contactId == f.contactId.value)
       && (KindFilterOn(f) ==> PersonalTxnTypeName(x.val.kind) == f.kind.value)
       && (f.startDate.Some? ==> x.val.date >= f.startDate.value)
       && (f.endDate.Some? ==> x.val.date <= f.endDate.value))
  {
  }

  /** `index`: the caller's matching entries, newest date first, later-created first on the same date. */
  method IndexPersonalTransactions(db: Db, owner: Id, f: PersonalFilter) returns (r: seq<Row<PersonalTransaction>>)
    ensures multiset(r) == multiset(Select(db.personalTransactions.rows, EntryMatches(owner, f)))
    ensures Sorting.SortedBy(NewestFirst(EntryDate), r)
  {
    var rows := db.personalTransactions.rows;
    var q := Select(rows, OwnedBy(owner));
    q := Where(q, ContactFilterOn(f), ContactClause(f));
    SelectAnd(rows, OwnedBy(owner), ContactClause(f));
    q := Where(q, KindFilterOn(f), KindClause(f));
    SelectAnd(rows, And(OwnedBy(owner), ContactClause(f)), KindClause(f));
    q := Where(q, f.startDate.Some?, FromClause(f));
    SelectAnd(rows, And(And(OwnedBy(owner), ContactClause(f)), KindClause(f)), FromClause(f));
    q := Where(q, f.endDate.Some?, ToClause(f));
    SelectAnd(rows, And(And(And(OwnedBy(owner), ContactClause(f)), KindClause(f)), FromClause(f)), ToClause(f));
    NewestFirstIsTotalPreorder(EntryDate);
    r := Sorting.Sort(NewestFirst(EntryDate), q);
  }

  /** The request body of `store`; `date` is None when it is missing or not a date. */
  datatype PersonalRequest = PersonalRequest(
    contactId: Id, kind: string, amount: Money, date: Option<Day>, note: Option<string>,
    paymentMethod: string, referenceNumber: Option<string>)

  /** The validator of `store`: the contact must exist, whoever owns it. */
  predicate ValidPersonalRequest(contacts: seq<Row<PersonalContact>>, req: PersonalRequest)
  {
    && Find(contacts, req.contactId).Some?
    && ParsePersonalTxnType(req.kind).Some?
    && ValidAmount(req.amount)
    && req.date.Some?
    && (req.note.None? || |req.note.value| <= 1000)
    && ParsePersonalMethod(req.paymentMethod).Some?
    && (req.referenceNumber.None? || |req.referenceNumber.value| <= 255)
  }

  function NewEntry(owner: Id, req: PersonalRequest): (t: PersonalTransaction)
    requires ParsePersonalTxnType(req.kind).Some? && req.date.Some? && ParsePersonalMethod(req.paymentMethod).Some?
    ensures t.owner == owner && t.contactId == req.contactId
    ensures PersonalTxnTypeName(t.kind) == req.kind
  {
    PersonalTransaction(owner, req.contactId, ParsePersonalTxnType(req.kind).value, req.amount, req.date.value,
                        req.note, ParsePersonalMethod(req.paymentMethod).value, req.referenceNumber)
  }

  /**
   * `store`: the validator first (422), then the contact must be the
   * caller's (404); only then is exactly one entry appended.
   */
  method StorePersonalTransaction(db: Db, owner: Id, req: PersonalRequest) returns (r: Result<Id, Error>)
    requires Tables.Valid(db.personalTransactions) && Tables.Valid(db.contacts)
    modifies db`personalTransactions
    ensures Tables.Valid(db.personalTransactions)
    ensures r == Failure(ValidationFailed) <==> !ValidPersonalRequest(db.contacts.rows, req)
    ensures r == Failure(NotFound) <==>
      ValidPersonalRequest(db.contacts.rows, req) && Find(db.contacts.rows, req.contactId).value.owner != owner
    ensures r.Failure? ==> unchanged(db`personalTransactions)
    ensures r.Success? ==> ValidPersonalRequest(db.contacts.rows, req) && Find(db.contacts.rows, req.contactId).value.owner == owner
    ensures r.Success? ==>
      r.value == old(db.personalTransactions.nextId) && db.personalTransactions == Insert(old(db.personalTransactions), NewEntry(owner, req))
  {
    if !ValidPersonalRequest(db.contacts.rows, req) {
      return Failure(ValidationFailed);
    }
    if FindOwned(db.contacts.rows, req.contactId, ContactOwner, owner).None? {
      return Failure(NotFound);
    }
    r := Success(db.personalTransactions.nextId);
    db.personalTransactions := Insert(db.personalTransactions, NewEntry(owner, req));
  }

  /** An entry moves its contact's balance by its amount: up for `given`, down for `received`. */
  lemma StoreMovesContactBalance(contact: Row<PersonalContact>, ptxns: seq<Row<PersonalTransaction>>, owner: Id, req: PersonalRequest, k: Id)
    requires ParsePersonalTxnType(req.kind).Some? && req.date.Some? && ParsePersonalMethod(req.paymentMethod).Some?
    requires req.contactId == contact.id
    ensures ContactBalance(contact, ptxns + [Row(k, NewEntry(owner, req))])
         == ContactBalance(contact, ptxns) + (if req.kind == "given" then req.amount else -req.amount)
  {
    ContactBalanceAppend(contact, ptxns, Row(k, NewEntry(owner, req)));
  }

  /**
   * The body of `update`: None for a field left out; `date` is Some(None)
   * when it is sent but is not a date; `note` and `referenceNumber` are
   * Some(None) when sent as null. There is no contact field.
   */
  datatype PersonalUpdate = PersonalUpdate(
    kind: Option<string>, amount: Option<Money>, date: Option<Option<Day>>, note: Option<Option<string>>,
    paymentMethod: Option<string>, referenceNumber: Option<Option<string>>)

  predicate ValidPersonalUpdate(u: PersonalUpdate)
  {
    && (u.kind.None? || ParsePersonalTxnType(u.kind.value).Some?)
    && (u.amount.None? || ValidAmount(u.amount.value))
    && (u.date.None? || u.date.value.Some?)
    && (u.note.None? || u.note.value.None? || |u.note.value.value| <= 1000)
    && (u.paymentMethod.None? || ParsePersonalMethod(u.paymentMethod.value).Some?)
    && (u.referenceNumber.None? || u.referenceNumber.value.None? || |u.referenceNumber.value.value| <= 255)
  }

  function ApplyPersonalUpdate(t: PersonalTransaction, u: PersonalUpdate): (r: PersonalTransaction)
    requires ValidPersonalUpdate(u)
    ensures r.owner == t.owner && r.contactId == t.contactId
  {
    PersonalTransaction(
      t.owner, t.contactId,
      if u.kind.Some? then ParsePersonalTxnType(u.kind.value).value else t.kind,
      u.amount.GetOr(t.amount),
      if u.date.Some? then u.date.value.value else t.date,
      u.note.GetOr(t.note),
      if u.paymentMethod.Some? then ParsePersonalMethod(u.paymentMethod.value).value else t.payMethod,
      u.referenceNumber.GetOr(t.referenceNumber))
  }

  /** A field that is not sent keeps its value; a sent field reads back as sent. */
  lemma UpdateOnlySentFields(t: PersonalTransaction, u: PersonalUpdate)
    requires ValidPersonalUpdate(u)
    ensures var r := ApplyPersonalUpdate(t, u);
      && (u.kind.None? ==> r.kind == t.kind) && (u.kind.Some? ==> PersonalTxnTypeName(r.kind) == u.kind.value)
      && (u.amount.None? ==> r.amount == t.amount) && (u.amount.Some? ==> r.amount == u.amount.value)
      && (u.date.None? ==> r.date == t.date) && (u.date.Some? ==> Some(r.date) == u.date.value)
      && (u.note.None? ==> r.note == t.note) && (u.note.Some? ==> r.note == u.note.value)
      && (u.paymentMethod.None? ==> r.payMethod == t.payMethod)
      && (u.referenceNumber.None? ==> r.referenceNumber == t.referenceNumber)
      && (u.referenceNumber.Some? ==> r.referenceNumber == u.referenceNumber.value)
  {
  }

  /** Sending the same update twice is the same as sending it once. */
  lemma UpdateIdempotent(t: PersonalTransaction, u: PersonalUpdate)
    requires ValidPersonalUpdate(u)
    ensures ApplyPersonalUpdate(ApplyPersonalUpdate(t, u), u) == ApplyPersonalUpdate(t, u)
  {
  }

  /** Whatever is sent, the entry stays with its contact: no contact's balance gains or loses an entry. */
  lemma UpdateKeepsContact(rows: seq<Row<PersonalTransaction>>, id: Id, t: PersonalTransaction, u: PersonalUpdate)
    requires ValidPersonalUpdate(u) && Row(id, t) in rows
    ensures var r := Replace(rows, id, ApplyPersonalUpdate(t, u));
      forall i :: 0 <= i < |r| ==> r[i].val.contactId == (if rows[i].id == id then t.contactId else rows[i].val.contactId)
  {
  }

  /** `update`: not found first, then the validator; otherwise the entry is updated in place and returned. */
  method UpdatePersonalTransaction(db: Db, owner: Id, id: Id, u: PersonalUpdate) returns (r: Result<PersonalTransaction, Error>)
    requires Tables.Valid(db.personalTransactions)
    modifies db`personalTransactions
    ensures Tables.Valid(db.personalTransactions)
    ensures r.Failure? ==> unchanged(db`personalTransactions)
    ensures r == Failure(NotFound) <==> FindOwned(old(db.personalTransactions.rows), id, EntryOwner, owner).None?
    ensures r == Failure(ValidationFailed) <==>
      FindOwned(old(db.personalTransactions.rows), id, EntryOwner, owner).Some? && !ValidPersonalUpdate(u)
    ensures r.Success? ==> ValidPersonalUpdate(u) && FindOwned(old(db.personalTransactions.rows), id, EntryOwner, owner).Some?
    ensures r.Success? ==>
      && r.value == ApplyPersonalUpdate(FindOwned(old(db.personalTransactions.rows), id, EntryOwner, owner).value, u)
      && db.personalTransactions == Table(Replace(old(db.personalTransactions.rows), id, r.value), old(db.personalTransactions.nextId))
  {
    var found := FindOwned(db.personalTransactions.rows, id, EntryOwner, owner);
    if found.None? {
      return Failure(NotFound);
    }
    if !ValidPersonalUpdate(u) {
      return Failure(ValidationFailed);
    }
    var t := ApplyPersonalUpdate(found.value, u);
    ReplaceValid(db.personalTransactions, id, t);
    db.personalTransactions := Table(Replace(db.personalTransactions.rows, id, t), db.personalTransactions.nextId);
    r := Success(t);
  }

  /** `destroy`: not found changes nothing; otherwise exactly that entry is deleted. */
  method DestroyPersonalTransaction(db: Db, owner: Id, id: Id) returns (r: Option<Error>)
    requires Tables.Valid(db.personalTransactions)
    modifies db`personalTransactions
    ensures Tables.Valid(db.personalTransactions)
    ensures r.Some? <==> FindOwned(old(db.personalTransactions.rows), id, EntryOwner, owner).None?
    ensures r.Some? ==> r.value == NotFound && unchanged(db`personalTransactions)
    ensures r.None? ==>
      db.personalTransactions == Table(Remove(old(db.personalTransactions.rows), id), old(db.personalTransactions.nextId))
  {
    if FindOwned(db.personalTransactions.rows, id, EntryOwner, owner).None? {
      return Some(NotFound);
    }
    RemoveValid(db.personalTransactions, id);
    db.personalTransactions := Table(Remove(db.personalTransactions.rows, id), db.personalTransactions.nextId);
    r := None;
  }

  /** What `destroy` leaves: the other entries in order, and the contact's balance without the deleted entry's effect. */
  lemma DestroyRemovesOneEntry(rows: seq<Row<PersonalTransaction>>, owner: Id, id: Id, contact: Row<PersonalContact>)
    requires Ascending(rows) && FindOwned(rows, id, EntryOwner, owner).Some?
    ensures exists k :: (0 <= k < |rows| && rows[k] == Row(id, FindOwned(rows, id, EntryOwner, owner).value)
                         && Remove(rows, id) == rows[..k] + rows[k + 1..]
                         && ContactBalance(contact, Remove(rows, id))
                            == ContactBalance(contact, rows) - ContactEffect(contact.id, rows[k].val))
  {
    RemoveFound(rows, id);
    var k :| 0 <= k < |rows| && rows[k] == Row(id, Find(rows, id).value) && Remove(rows, id) == rows[..k] + rows[k + 1..];
    ContactBalanceRemoveAt(contact, rows, k);
  }
}
