/**
 * The query-builder pieces the controllers share: chained `where` clauses,
 * `where('user_id', ...)->find($id)`, and `orderBy(date, 'desc')
 * ->orderBy('created_at', 'desc')`, where `created_at` order is id order.
 */
module Queries {
  import opened Wrappers
  import opened Tables
  import opened Sorting
  import opened Text

  /** PHP truthiness of a query-string value: "" and "0" are false. */
  predicate Truthy(s: string)
  {
    s != "" && s != "0"
  }

  /** The conjunction of two `where` clauses. */
  function And<T>(p: T -> bool, q: T -> bool): T -> bool
  {
    (x: T) => p(x) && q(x)
  }

  /** Adding a clause to a query filters its result by that clause. */
  lemma SelectAnd<T(!new)>(s: seq<T>, p: T -> bool, q: T -> bool)
    ensures Select(Select(s, p), q) == Select(s, And(p, q))
  {
    SelectSelect(s, p, q, And(p, q));
  }

  /** A clause that holds for every row leaves the rows as they are. */
  lemma SelectTrue<T(!new)>(s: seq<T>, p: T -> bool)
    requires forall x :: p(x)
    ensures Select(s, p) == s
  {
    SelectAll(s, p);
  }

  /** A `where` clause added only when its filter is on; an unused clause holds of every row. */
  method Where<T(!new)>(q: seq<T>, on: bool, p: T -> bool) returns (r: seq<T>)
    requires !on ==> forall x :: p(x)
    ensures r == Select(q, p)
  {
    if on {
      r := Select(q, p);
    } else {
      SelectTrue(q, p);
      r := q;
    }
  }

  /** The rows a clause does not select. */
  function Not<T>(p: T -> bool): T -> bool
  {
    (x: T) => !p(x)
  }

  /** A `delete()` of the rows matching p leaves exactly the rows not counted by `count()`. */
  lemma {:induction false} SelectSplitCount<T(!new)>(s: seq<T>, p: T -> bool)
    ensures Count(s, p) + |Select(s, Not(p))| == |s|
  {
    if s != [] {
      SelectSplitCount(s[1..], p);
    }
  }

  /** `orderBy('name')`. */
  function ByName<T>(nameOf: T -> string): (Row<T>, Row<T>) -> bool
  {
    (a: Row<T>, b: Row<T>) => NameLeq(nameOf(a.val), nameOf(b.val))
  }

  lemma ByNameIsTotalPreorder<T(!new)>(nameOf: T -> string)
    ensures IsTotalPreorder(ByName(nameOf))
  {
    forall a: Row<T>, b: Row<T> ensures ByName(nameOf)(a, b) || ByName(nameOf)(b, a) {
      NameLeqTotal(nameOf(a.val), nameOf(b.val));
    }
    forall a: Row<T>, b: Row<T>, c: Row<T> | ByName(nameOf)(a, b) && ByName(nameOf)(b, c)
      ensures ByName(nameOf)(a, c)
    {
      NameLeqTransitive(nameOf(a.val), nameOf(b.val), nameOf(c.val));
    }
  }

  /** Newest date first; on the same date the later-created (higher id) row first. */
  function NewestFirst<T>(dateOf: T -> int): (Row<T>, Row<T>) -> bool
  {
    (a: Row<T>, b: Row<T>) => dateOf(a.val) > dateOf(b.val) || (dateOf(a.val) == dateOf(b.val) && a.id >= b.id)
  }

  lemma NewestFirstIsTotalPreorder<T(!new)>(dateOf: T -> int)
    ensures IsTotalPreorder(NewestFirst(dateOf))
  {
  }

  /** `orderBy(date, 'desc')` alone: rows on the same date may come in any order. */
  function DateDesc<T>(dateOf: T -> int): (Row<T>, Row<T>) -> bool
  {
    (a: Row<T>, b: Row<T>) => dateOf(a.val) >= dateOf(b.val)
  }

  lemma DateDescIsTotalPreorder<T(!new)>(dateOf: T -> int)
    ensures IsTotalPreorder(DateDesc(dateOf))
  {
  }

  /** The first n of a sorted sequence are sorted, and none of the rest comes strictly before them. */
  lemma TakeSorted<T>(before: (T, T) -> bool, t: seq<T>, n: nat)
    requires SortedBy(before, t)
    ensures var r := Take(t, n);
      && multiset(r) <= multiset(t)
      && SortedBy(before, r)
      && forall i, x :: 0 <= i < |r| && x in multiset(t) - multiset(r) ==> before(r[i], x)
  {
    var r := Take(t, n);
    if |t| > n {
      assert t == r + t[n..];
      assert multiset(t) == multiset(r) + multiset(t[n..]);
      forall i, x | 0 <= i < |r| && x in multiset(t) - multiset(r) ensures before(r[i], x) {
        assert x in multiset(t[n..]);
        var j :| 0 <= j < |t[n..]| && t[n..][j] == x;
        assert t[n + j] == x;
      }
    } else {
      assert multiset(t) - multiset(r) == multiset{};
    }
  }

  /**
   * `orderBy(...)->limit(n)`: at most n rows of s, in order, and none of the
   * rows left out comes before any row kept.
   */
  lemma TopOf<T(!new)>(before: (T, T) -> bool, s: seq<T>, n: nat)
    requires IsTotalPreorder(before)
    ensures var r := Take(Sort(before, s), n);
      && |r| == (if |s| <= n then |s| else n)
      && multiset(r) <= multiset(s)
      && SortedBy(before, r)
      && forall i, x :: 0 <= i < |r| && x in multiset(s) - multiset(r) ==> before(r[i], x)
  {
    var t := Sort(before, s);
    assert |t| == |s| by {
      assert |multiset(t)| == |multiset(s)|;
    }
    TakeSorted(before, t, n);
  }

  /**
   * `where('user_id', $owner)->find($id)`: the row with that id if the caller
   * owns it. With unique ids, None means no row with that id is the caller's.
   */
  function FindOwned<T>(rows: seq<Row<T>>, id: nat, ownerOf: T -> nat, owner: nat): (r: Option<T>)
    ensures r.Some? ==> Row(id, r.value) in rows && ownerOf(r.value) == owner
    ensures Ascending(rows) && r.None? ==>
      forall k :: 0 <= k < |rows| && rows[k].id == id ==> ownerOf(rows[k].val) != owner
  {
    match Find(rows, id)
    case Some(v) => if ownerOf(v) == owner then Some(v) else None
    case None => None
  }

  /** The owner's row with that id is found. */
  lemma FindOwnedRow<T>(rows: seq<Row<T>>, k: nat, ownerOf: T -> nat)
    requires Ascending(rows) && k < |rows|
    ensures FindOwned(rows, rows[k].id, ownerOf, ownerOf(rows[k].val)) == Some(rows[k].val)
  {
    FindRow(rows, k);
  }
}
