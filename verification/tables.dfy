/**
 * Database tables as values: the rows in insertion order, each carrying the
 * auto-increment id the database gave it. Because ids only grow, insertion
 * order, id order and `created_at` order coincide.
 */
module Tables {
  import opened Wrappers

  datatype Row<T> = Row(id: nat, val: T)

  datatype Table<T> = Table(rows: seq<Row<T>>, nextId: nat)

  ghost predicate Ascending<T>(rows: seq<Row<T>>)
  {
    forall i, j :: 0 <= i < j < |rows| ==> rows[i].id < rows[j].id
  }

  /** Ids strictly increase along the rows and are all below the next id to hand out. */
  ghost predicate Valid<T>(t: Table<T>)
  {
    Ascending(t.rows) && forall i :: 0 <= i < |t.rows| ==> t.rows[i].id < t.nextId
  }

  function Empty<T>(): (t: Table<T>)
    ensures Valid(t) && |t.rows| == 0
  {
    Table([], 1)
  }

  /** `Model::create`: the new row gets the next id and goes last. */
  function Insert<T>(t: Table<T>, v: T): (r: Table<T>)
    ensures Valid(t) ==> Valid(r)
    ensures r.rows == t.rows + [Row(t.nextId, v)] && r.nextId == t.nextId + 1
  {
    Table(t.rows + [Row(t.nextId, v)], t.nextId + 1)
  }

  /** Inserting the values one after another: they get consecutive ids and go last, in order. */
  function InsertAll<T>(t: Table<T>, vs: seq<T>): (r: Table<T>)
    ensures Valid(t) ==> Valid(r)
    ensures r.nextId == t.nextId + |vs|
    ensures |r.rows| == |t.rows| + |vs| && r.rows[..|t.rows|] == t.rows
    ensures forall k :: 0 <= k < |vs| ==> r.rows[|t.rows| + k] == Row(t.nextId + k, vs[k])
    decreases |vs|
  {
    if vs == [] then t else Insert(InsertAll(t, vs[..|vs| - 1]), vs[|vs| - 1])
  }

  /** The rows whose value satisfies p, in their original order (a `where` clause). */
  function Select<T(!new)>(s: seq<T>, p: T -> bool): (r: seq<T>)
    ensures forall x :: x in r <==> x in s && p(x)
    ensures |r| <= |s|
  {
    if s == [] then []
    else if p(s[0]) then [s[0]] + Select(s[1..], p)
    else Select(s[1..], p)
  }

  lemma {:induction false} SelectAscending<T(!new)>(rows: seq<Row<T>>, p: Row<T> -> bool)
    requires Ascending(rows)
    ensures Ascending(Select(rows, p))
  {
    if rows != [] {
      SelectAscending(rows[1..], p);
      var rest := Select(rows[1..], p);
      forall y | y in rest ensures rows[0].id < y.id {
        var k :| 0 <= k < |rows[1..]| && rows[1..][k] == y;
        assert rows[k + 1] == y;
      }
    }
  }

  lemma {:induction false} SelectAll<T(!new)>(s: seq<T>, p: T -> bool)
    requires forall i :: 0 <= i < |s| ==> p(s[i])
    ensures Select(s, p) == s
  {
    if s != [] {
      assert forall i :: 0 <= i < |s[1..]| ==> s[1..][i] == s[i + 1];
      SelectAll(s[1..], p);
      assert s == [s[0]] + s[1..];
    }
  }

  lemma {:induction false} SelectAppend<T(!new)>(s: seq<T>, t: seq<T>, p: T -> bool)
    ensures Select(s + t, p) == Select(s, p) + Select(t, p)
  {
    if s == [] {
      assert s + t == t;
    } else {
      assert (s + t)[1..] == s[1..] + t;
      SelectAppend(s[1..], t, p);
    }
  }

  /** Chaining two `where` clauses filters by their conjunction. */
  lemma {:induction false} SelectSelect<T(!new)>(s: seq<T>, p: T -> bool, q: T -> bool, pq: T -> bool)
    requires forall x :: pq(x) == (p(x) && q(x))
    ensures Select(Select(s, p), q) == Select(s, pq)
  {
    if s != [] {
      SelectSelect(s[1..], p, q, pq);
    }
  }

  /** The number of rows a `count()` with condition p returns. */
  function Count<T(!new)>(s: seq<T>, p: T -> bool): nat
  {
    |Select(s, p)|
  }

  /** `find($id)`: the value of the row with that id, if there is one. */
  function Find<T>(rows: seq<Row<T>>, id: nat): (r: Option<T>)
    ensures r.Some? ==> Row(id, r.value) in rows
    ensures r.None? ==> forall i :: 0 <= i < |rows| ==> rows[i].id != id
  {
    if rows == [] then None
    else if rows[0].id == id then Some(rows[0].val)
    else Find(rows[1..], id)
  }

  /** With unique ids, a row with that id determines what Find returns. */
  lemma {:induction false} FindRow<T>(rows: seq<Row<T>>, k: nat)
    requires Ascending(rows) && k < |rows|
    ensures Find(rows, rows[k].id) == Some(rows[k].val)
  {
    if k > 0 {
      assert rows[0].id < rows[k].id;
      FindRow(rows[1..], k - 1);
    }
  }

  /** The where-clause `id != id`. */
  function OtherId<T>(id: nat): Row<T> -> bool
  {
    (x: Row<T>) => x.id != id
  }

  /** `delete()` of the row with that id. */
  function Remove<T(!new)>(rows: seq<Row<T>>, id: nat): (r: seq<Row<T>>)
    ensures forall x :: x in r <==> x in rows && x.id != id
  {
    Select(rows, OtherId(id))
  }

  lemma AscendingTail<T>(rows: seq<Row<T>>)
    requires Ascending(rows) && 0 < |rows|
    ensures Ascending(rows[1..])
  {
  }

  lemma RemoveFirst<T(!new)>(rows: seq<Row<T>>)
    requires Ascending(rows) && 0 < |rows|
    ensures Remove(rows, rows[0].id) == rows[1..]
  {
    var id := rows[0].id;
    forall i | 0 <= i < |rows[1..]| ensures OtherId(id)(rows[1..][i]) {
      assert rows[0].id < rows[i + 1].id;
    }
    SelectAll(rows[1..], OtherId(id));
  }

  /** Removing a present id takes out exactly one row and leaves the others in order. */
  lemma {:induction false} RemoveOne<T(!new)>(rows: seq<Row<T>>, k: nat)
    requires Ascending(rows) && k < |rows|
    ensures Remove(rows, rows[k].id) == rows[..k] + rows[k + 1..]
  {
    var id := rows[k].id;
    if k == 0 {
      RemoveFirst(rows);
    } else {
      assert rows[0].id < id;
      AscendingTail(rows);
      RemoveOne(rows[1..], k - 1);
      assert rows[1..][..k - 1] == rows[1..k] && rows[1..][k..] == rows[k + 1..];
      calc {
        Remove(rows, id);
        [rows[0]] + Remove(rows[1..], id);
        [rows[0]] + (rows[1..k] + rows[k + 1..]);
        ([rows[0]] + rows[1..k]) + rows[k + 1..];
        { assert rows[..k] == [rows[0]] + rows[1..k]; }
        rows[..k] + rows[k + 1..];
      }
    }
  }

  /** Removing a present id takes out exactly the row Find returns. */
  lemma RemoveFound<T(!new)>(rows: seq<Row<T>>, id: nat)
    requires Ascending(rows) && Find(rows, id).Some?
    ensures exists k :: (0 <= k < |rows| && rows[k] == Row(id, Find(rows, id).value)
                         && Remove(rows, id) == rows[..k] + rows[k + 1..])
  {
    var k :| 0 <= k < |rows| && rows[k] == Row(id, Find(rows, id).value);
    RemoveOne(rows, k);
  }

  /** A `where ... delete()` keeps the table valid. */
  lemma SelectValid<T(!new)>(t: Table<T>, p: Row<T> -> bool)
    requires Valid(t)
    ensures Valid(Table(Select(t.rows, p), t.nextId))
  {
    SelectAscending(t.rows, p);
    var r := Select(t.rows, p);
    forall i | 0 <= i < |r| ensures r[i].id < t.nextId {
      assert r[i] in t.rows;
    }
  }

  lemma RemoveValid<T(!new)>(t: Table<T>, id: nat)
    requires Valid(t)
    ensures Valid(Table(Remove(t.rows, id), t.nextId))
  {
    SelectValid(t, OtherId(id));
  }

  /** `update()` of the row with that id: its value becomes v, every row keeps its id and place. */
  function Replace<T>(rows: seq<Row<T>>, id: nat, v: T): (r: seq<Row<T>>)
    ensures |r| == |rows|
    ensures forall i :: 0 <= i < |r| ==> r[i].id == rows[i].id
    ensures forall i :: 0 <= i < |r| ==> r[i].val == if rows[i].id == id then v else rows[i].val
  {
    if rows == [] then []
    else [if rows[0].id == id then Row(id, v) else rows[0]] + Replace(rows[1..], id, v)
  }

  lemma ReplaceValid<T>(t: Table<T>, id: nat, v: T)
    requires Valid(t)
    ensures Valid(Table(Replace(t.rows, id, v), t.nextId))
  {
  }

  /** After a replacement the row reads back as v. */
  lemma {:induction false} FindReplaced<T>(rows: seq<Row<T>>, id: nat, v: T)
    requires Find(rows, id).Some?
    ensures Find(Replace(rows, id, v), id) == Some(v)
  {
    var r := Replace(rows, id, v);
    assert r[0].id == rows[0].id;
    if rows[0].id != id {
      assert r[1..] == Replace(rows[1..], id, v);
      FindReplaced(rows[1..], id, v);
    }
  }

  /** A replacement leaves every other id reading as before. */
  lemma {:induction false} FindReplaceOther<T>(rows: seq<Row<T>>, id: nat, v: T, other: nat)
    requires other != id
    ensures Find(Replace(rows, id, v), other) == Find(rows, other)
  {
    if rows != [] {
      var r := Replace(rows, id, v);
      assert r[0].id == rows[0].id;
      assert r[1..] == Replace(rows[1..], id, v);
      FindReplaceOther(rows[1..], id, v, other);
    }
  }

  /** `limit(n)`. */
  function Take<T>(s: seq<T>, n: nat): (r: seq<T>)
    ensures |r| <= n && |r| <= |s|
    ensures |s| <= n ==> r == s
    ensures |s| > n ==> r == s[..n]
    ensures forall i :: 0 <= i < |r| ==> r[i] == s[i]
  {
    if |s| <= n then s else s[..n]
  }
}
