/**
 * Expense categories (`CategoryController`): each user's own list of names,
 * unique ignoring case, stored trimmed.
 */
module Categories {
  import opened Wrappers
  import opened Tables
  import opened Records
  import Sorting
  import opened Queries
  import opened Text
  import opened Store

  function CategoryOwner(c: Category): Id { c.owner }
  function CategoryName(c: Category): string { c.name }

  function OwnedCategory(owner: Id): Row<Category> -> bool
  {
    (c: Row<Category>) => c.val.owner == owner
  }

  /** `index`: the caller's categories, ordered by name. */
  function IndexCategories(rows: seq<Row<Category>>, owner: Id): (r: seq<Row<Category>>)
    ensures multiset(r) == multiset(Select(rows, OwnedCategory(owner)))
    ensures forall x :: x in r <==> x in rows && x.val.owner == owner
    ensures Sorting.SortedBy(ByName(CategoryName), r)
  {
    ByNameIsTotalPreorder(CategoryName);
    var q := Select(rows, OwnedCategory(owner));
    var r := Sorting.Sort(ByName(CategoryName), q);
    assert forall x :: x in r <==> x in multiset(q);
    r
  }

  /** `where('user_id', owner)->whereRaw('LOWER(name) = ?', [strtolower(name)])->exists()`. */
  predicate NameTaken(rows: seq<Row<Category>>, owner: Id, name: string)
  {
    exists k :: 0 <= k < |rows| && rows[k].val.owner == owner && Lower(rows[k].val.name) == Lower(name)
  }

  /** No user has two categories whose names are equal ignoring case. */
  ghost predicate UniqueNames(rows: seq<Row<Category>>)
  {
    forall a, b :: a in rows && b in rows && a.id != b.id && a.val.owner == b.val.owner ==> Lower(a.val.name) != Lower(b.val.name)
  }

  /** The validator's `required|string|max:100`, on the name as sent. */
  predicate NameAccepted(name: Option<string>)
  {
    name.Some? && Trim(name.value) != "" && |name.value| <= 100
  }

  /** Why `store` refuses a name, if it does: the validator, the empty trimmed name, or a name the caller already has. */
  function StoreRefusal(rows: seq<Row<Category>>, owner: Id, name: Option<string>): (r: Option<Error>)
    ensures r.Some? ==> r.value == ValidationFailed
    ensures r.None? <==> NameAccepted(name) && !NameTaken(rows, owner, Trim(name.value))
  {
    if !NameAccepted(name) then Some(ValidationFailed)
    else if Trim(name.value) == "" then Some(ValidationFailed)
    else if NameTaken(rows, owner, Trim(name.value)) then Some(ValidationFailed)
    else None
  }

  /** The controller's own empty-name check never fires: `required` already refuses a name that trims to nothing. */
  lemma EmptyNameCheckUnreachable(name: Option<string>)
    requires NameAccepted(name)
    ensures Trim(name.value) != ""
  {
  }

  /** A name that is too long before trimming is refused even if its trimmed form would fit. */
  lemma LengthCheckedBeforeTrim(rows: seq<Row<Category>>, owner: Id)
    ensures var name := "a" + Repeat(' ', 100);
      && |Trim(name)| == 1 && StoreRefusal(rows, owner, Some(name)) == Some(ValidationFailed)
  {
    var name := "a" + Repeat(' ', 100);
    assert |name| == 101;
    assert Trim(name) == "a" by {
      TrimAfterLetter(Repeat(' ', 100));
    }
  }

  lemma {:induction false} TrimAfterLetter(spaces: string)
    requires forall i :: 0 <= i < |spaces| ==> spaces[i] == ' '
    ensures Trim("a" + spaces) == "a"
  {
    assert TrimStart("a" + spaces) == "a" + spaces;
    if spaces != [] {
      var init := spaces[..|spaces| - 1];
      assert ("a" + spaces)[..|spaces|] == "a" + init;
      TrimAfterLetter(init);
    }
  }

  /** Storing an untaken name keeps every user's names unique. */
  lemma StoreKeepsNamesUnique(rows: seq<Row<Category>>, owner: Id, name: string, id: Id)
    requires UniqueNames(rows) && !NameTaken(rows, owner, name)
    requires forall x :: x in rows ==> x.id != id
    ensures UniqueNames(rows + [Row(id, Category(owner, name))])
  {
    var rows' := rows + [Row(id, Category(owner, name))];
    forall a, b | a in rows' && b in rows' && a.id != b.id && a.val.owner == b.val.owner
      ensures Lower(a.val.name) != Lower(b.val.name)
    {
      if a !in rows {
        var k :| 0 <= k < |rows| && rows[k] == b;
      } else if b !in rows {
        var k :| 0 <= k < |rows| && rows[k] == a;
      }
    }
  }

  /** Deleting a category keeps the names unique. */
  lemma DestroyKeepsNamesUnique(rows: seq<Row<Category>>, id: Id)
    requires UniqueNames(rows)
    ensures UniqueNames(Remove(rows, id))
  {
  }

  /** Once stored, the same name in any case is refused for that user. */
  lemma SameNameRefusedAfterStore(rows: seq<Row<Category>>, owner: Id, name: string, again: string, id: Id)
    requires Lower(Trim(again)) == Lower(name)
    ensures NameTaken(rows + [Row(id, Category(owner, name))], owner, Trim(again))
  {
    var rows' := rows + [Row(id, Category(owner, name))];
    assert rows'[|rows|] == Row(id, Category(owner, name));
  }

  /**
   * `store`: a refused name changes nothing; otherwise one category with the
   * trimmed name is appended. The names stay unique.
   */
  method StoreCategory(db: Db, owner: Id, name: Option<string>) returns (r: Result<Id, Error>)
    requires Tables.Valid(db.categories)
    modifies db`categories
    ensures Tables.Valid(db.categories)
    ensures r.Failure? <==> StoreRefusal(old(db.categories.rows), owner, name).Some?
    ensures r.Failure? ==> r.error == ValidationFailed && unchanged(db`categories)
    ensures r.Success? ==> NameAccepted(name) && !NameTaken(old(db.categories.rows), owner, Trim(name.value))
    ensures r.Success? ==>
      r.value == old(db.categories.nextId) && db.categories == Insert(old(db.categories), Category(owner, Trim(name.value)))
    ensures UniqueNames(old(db.categories.rows)) ==> UniqueNames(db.categories.rows)
  {
    var refusal := StoreRefusal(db.categories.rows, owner, name);
    if refusal.Some? {
      return Failure(refusal.value);
    }
    var trimmed := Trim(name.value);
    if UniqueNames(db.categories.rows) {
      StoreKeepsNamesUnique(db.categories.rows, owner, trimmed, db.categories.nextId);
    }
    r := Success(db.categories.nextId);
    db.categories := Insert(db.categories, Category(owner, trimmed));
  }

  /** `destroy`: not found changes nothing; otherwise exactly that category is deleted. */
  method DestroyCategory(db: Db, owner: Id, id: Id) returns (r: Option<Error>)
    requires Tables.Valid(db.categories)
    modifies db`categories
    ensures Tables.Valid(db.categories)
    ensures r.Some? <==> FindOwned(old(db.categories.rows), id, CategoryOwner, owner).None?
    ensures r.Some? ==> r.value == NotFound && unchanged(db`categories)
    ensures r.None? ==> db.categories == Table(Remove(old(db.categories.rows), id), old(db.categories.nextId))
  {
    if FindOwned(db.categories.rows, id, CategoryOwner, owner).None? {
      return Some(NotFound);
    }
    RemoveValid(db.categories, id);
    db.categories := Table(Remove(db.categories.rows, id), db.categories.nextId);
    r := None;
  }
}
