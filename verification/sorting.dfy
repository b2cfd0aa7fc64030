/**
 * `orderBy`: a stable insertion sort under a total preorder `before`
 * (`before(a, b)` means a may be listed ahead of b).
 */
module Sorting {

  ghost predicate IsTotalPreorder<T(!new)>(before: (T, T) -> bool)
  {
    && (forall a, b :: before(a, b) || before(b, a))
    && (forall a, b, c :: before(a, b) && before(b, c) ==> before(a, c))
  }

  predicate SortedBy<T>(before: (T, T) -> bool, s: seq<T>)
  {
    forall i, j :: 0 <= i < j < |s| ==> before(s[i], s[j])
  }

  function Insert<T(!new)>(before: (T, T) -> bool, x: T, s: seq<T>): (r: seq<T>)
    requires IsTotalPreorder(before) && SortedBy(before, s)
    ensures SortedBy(before, r)
    ensures multiset(r) == multiset(s) + multiset{x}
  {
    if s == [] then [x]
    else if before(x, s[0]) then [x] + s
    else
      var rest := Insert(before, x, s[1..]);
      assert s == [s[0]] + s[1..];
      assert forall y :: y in multiset(rest) ==> before(s[0], y) by {
        forall y | y in multiset(rest) ensures before(s[0], y) {
          if y != x {
            assert y in multiset(s[1..]);
            var k :| 0 <= k < |s[1..]| && s[1..][k] == y;
            assert s[k + 1] == y;
          }
        }
      }
      assert forall j :: 0 <= j < |rest| ==> before(s[0], rest[j]) by {
        forall j | 0 <= j < |rest| ensures before(s[0], rest[j]) {
          assert rest[j] in multiset(rest);
        }
      }
      [s[0]] + rest
  }

  /** The result is ordered and is a permutation of the input. */
  function Sort<T(!new)>(before: (T, T) -> bool, s: seq<T>): (r: seq<T>)
    requires IsTotalPreorder(before)
    ensures SortedBy(before, r)
    ensures multiset(r) == multiset(s)
  {
    if s == [] then []
    else
      assert s == [s[0]] + s[1..];
      Insert(before, s[0], Sort(before, s[1..]))
  }
}
