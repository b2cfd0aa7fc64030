/**
 * The balance accessors of the models: a party's running balance, a personal
 * contact's balance and its split into "you owe" / "they owe", and an
 * invoice's outstanding amount. Balances are folds over the ledger rows,
 * recomputed on every read; nothing is cached.
 */
module Balances {
  import opened Tables
  import opened Records
  import opened Sums

  /** The amount of a ledger row if it is a `kind` entry of that party, else 0. */
  function PartyAmount(partyId: Id, kind: TxnType): Row<Transaction> -> real
  {
    (t: Row<Transaction>) => if t.val.partyId == partyId && t.val.kind == kind then t.val.amount else 0.0
  }

  /**
   * `Party::getBalanceAttribute`: opening balance plus the party's debits minus
   * its credits. Every row with that `party_id` counts, whoever owns it.
   */
  function PartyBalance(party: Row<Party>, txns: seq<Row<Transaction>>): (r: Money)
    ensures r == party.val.openingBalance + Sum(txns, PartyEffects(party.id))
  {
    SumAdd(txns, PartyEffects(party.id), PartyAmount(party.id, Credit), PartyAmount(party.id, Debit));
    party.val.openingBalance
      + Sum(txns, PartyAmount(party.id, Debit))
      - Sum(txns, PartyAmount(party.id, Credit))
  }

  /** How one ledger row moves a party's balance: a debit raises it, a credit lowers it. */
  function PartyEffect(partyId: Id, t: Transaction): Money
  {
    if t.partyId != partyId then 0.0
    else if t.kind == Debit then t.amount
    else -t.amount
  }

  /** The signed measure of the ledger rows for one party. */
  function PartyEffects(partyId: Id): Row<Transaction> -> real
  {
    (t: Row<Transaction>) => PartyEffect(partyId, t.val)
  }

  lemma PartyBalanceWithoutTransactions(party: Row<Party>)
    ensures PartyBalance(party, []) == party.val.openingBalance
  {
  }

  /** Appending a debit of a raises the balance by a, a credit lowers it by a; other parties' rows change nothing. */
  lemma PartyBalanceAppend(party: Row<Party>, txns: seq<Row<Transaction>>, t: Row<Transaction>)
    ensures PartyBalance(party, txns + [t]) == PartyBalance(party, txns) + PartyEffect(party.id, t.val)
  {
    SumSnoc(txns, t, PartyAmount(party.id, Debit));
    SumSnoc(txns, t, PartyAmount(party.id, Credit));
  }

  /** The balance does not depend on the order of the ledger rows. */
  lemma PartyBalancePermutation(party: Row<Party>, a: seq<Row<Transaction>>, b: seq<Row<Transaction>>)
    requires multiset(a) == multiset(b)
    ensures PartyBalance(party, a) == PartyBalance(party, b)
  {
    SumPermutation(a, b, PartyAmount(party.id, Debit));
    SumPermutation(a, b, PartyAmount(party.id, Credit));
  }

  /** Deleting a ledger row takes its effect back out of the balance. */
  lemma PartyBalanceRemoveAt(party: Row<Party>, txns: seq<Row<Transaction>>, k: nat)
    requires k < |txns|
    ensures PartyBalance(party, txns[..k] + txns[k + 1..]) == PartyBalance(party, txns) - PartyEffect(party.id, txns[k].val)
  {
    SumRemoveAt(txns, k, PartyAmount(party.id, Debit));
    SumRemoveAt(txns, k, PartyAmount(party.id, Credit));
  }

  /** The where-clause `party_id = partyId`. */
  function OfParty(partyId: Id): Row<Transaction> -> bool
  {
    (t: Row<Transaction>) => t.val.partyId == partyId
  }

  /** Only the party's own rows count: the balance over them alone is the same. */
  lemma {:induction false} PartyBalanceOwnRows(party: Row<Party>, txns: seq<Row<Transaction>>)
    ensures PartyBalance(party, txns) == PartyBalance(party, Select(txns, OfParty(party.id)))
  {
    var own := OfParty(party.id);
    if txns != [] {
      var init := txns[..|txns| - 1];
      var last := txns[|txns| - 1];
      assert txns == init + [last];
      PartyBalanceOwnRows(party, init);
      SelectAppend(init, [last], own);
      PartyBalanceAppend(party, init, last);
      assert [last][1..] == [];
      if own(last) {
        assert Select(txns, own) == Select(init, own) + [last];
        PartyBalanceAppend(party, Select(init, own), last);
      } else {
        assert Select(txns, own) == Select(init, own);
        assert PartyEffect(party.id, last.val) == 0.0;
      }
    }
  }

  /** The amount of a personal ledger row if it is a `kind` entry of that contact, else 0. */
  function ContactAmount(contactId: Id, kind: PersonalTxnType): Row<PersonalTransaction> -> real
  {
    (t: Row<PersonalTransaction>) => if t.val.contactId == contactId && t.val.kind == kind then t.val.amount else 0.0
  }

  /**
   * `PersonalContact::getBalanceAttribute`: opening balance plus money given
   * minus money received; positive means the contact owes the owner.
   */
  function ContactBalance(contact: Row<PersonalContact>, ptxns: seq<Row<PersonalTransaction>>): (r: Money)
    ensures r == contact.val.openingBalance + Sum(ptxns, ContactEffects(contact.id))
  {
    SumAdd(ptxns, ContactEffects(contact.id), ContactAmount(contact.id, Received), ContactAmount(contact.id, Given));
    contact.val.openingBalance
      + Sum(ptxns, ContactAmount(contact.id, Given))
      - Sum(ptxns, ContactAmount(contact.id, Received))
  }

  function ContactEffect(contactId: Id, t: PersonalTransaction): Money
  {
    if t.contactId != contactId then 0.0
    else if t.kind == Given then t.amount
    else -t.amount
  }

  /** The signed measure of the personal ledger rows for one contact. */
  function ContactEffects(contactId: Id): Row<PersonalTransaction> -> real
  {
    (t: Row<PersonalTransaction>) => ContactEffect(contactId, t.val)
  }

  /** A `given` of a raises the balance by a, a `received` lowers it by a. */
  lemma ContactBalanceAppend(contact: Row<PersonalContact>, ptxns: seq<Row<PersonalTransaction>>, t: Row<PersonalTransaction>)
    ensures ContactBalance(contact, ptxns + [t]) == ContactBalance(contact, ptxns) + ContactEffect(contact.id, t.val)
  {
    SumSnoc(ptxns, t, ContactAmount(contact.id, Given));
    SumSnoc(ptxns, t, ContactAmount(contact.id, Received));
  }

  /** Deleting a personal ledger row takes its effect back out of the balance. */
  lemma ContactBalanceRemoveAt(contact: Row<PersonalContact>, ptxns: seq<Row<PersonalTransaction>>, k: nat)
    requires k < |ptxns|
    ensures ContactBalance(contact, ptxns[..k] + ptxns[k + 1..]) == ContactBalance(contact, ptxns) - ContactEffect(contact.id, ptxns[k].val)
  {
    SumRemoveAt(ptxns, k, ContactAmount(contact.id, Given));
    SumRemoveAt(ptxns, k, ContactAmount(contact.id, Received));
  }

  /** The part of a balance the owner owes (`abs($balance)` when it is negative). */
  function OwedByOwner(balance: Money): (r: Money)
    ensures r >= 0.0
    ensures r > 0.0 <==> balance < 0.0
  {
    if balance < 0.0 then -balance else 0.0
  }

  /** The part of a balance owed to the owner (the balance when it is positive). */
  function OwedToOwner(balance: Money): (r: Money)
    ensures r >= 0.0
    ensures r > 0.0 <==> balance > 0.0
  {
    if balance > 0.0 then balance else 0.0
  }

  /** The two parts give back the balance, and at most one of them is nonzero. */
  lemma OwedSplit(balance: Money)
    ensures OwedToOwner(balance) - OwedByOwner(balance) == balance
    ensures OwedToOwner(balance) == 0.0 || OwedByOwner(balance) == 0.0
  {
  }

  /** `PersonalContact::getYouOweAttribute`. */
  function YouOwe(contact: Row<PersonalContact>, ptxns: seq<Row<PersonalTransaction>>): (r: Money)
    ensures r >= 0.0
    ensures r > 0.0 ==> r == -ContactBalance(contact, ptxns)
  {
    OwedByOwner(ContactBalance(contact, ptxns))
  }

  /** `PersonalContact::getTheyOweAttribute`. */
  function TheyOwe(contact: Row<PersonalContact>, ptxns: seq<Row<PersonalTransaction>>): (r: Money)
    ensures r >= 0.0
    ensures r > 0.0 ==> r == ContactBalance(contact, ptxns)
  {
    OwedToOwner(ContactBalance(contact, ptxns))
  }

  lemma ContactOweSplit(contact: Row<PersonalContact>, ptxns: seq<Row<PersonalTransaction>>)
    ensures TheyOwe(contact, ptxns) - YouOwe(contact, ptxns) == ContactBalance(contact, ptxns)
    ensures TheyOwe(contact, ptxns) == 0.0 || YouOwe(contact, ptxns) == 0.0
  {
    OwedSplit(ContactBalance(contact, ptxns));
  }

  /**
   * `Invoice::getOutstandingAmountAttribute`: what is still to be paid, so
   * that paid and outstanding make up the total. It is not clamped.
   */
  function Outstanding(inv: Invoice): (r: Money)
    ensures inv.paidAmount + r == inv.totalAmount
    ensures r > 0.0 <==> inv.paidAmount < inv.totalAmount
  {
    inv.totalAmount - inv.paidAmount
  }
}
