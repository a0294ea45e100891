/**
 The stable comparison sort that the source takes from its runtime (`Array.prototype.sort`),
 as a function on values, with the two facts its callers rely on: it permutes and it orders.
 */
module Sorting {

  /** `less(a, b)` is a comparator's "a comes strictly before b". */
  ghost predicate StrictWeakOrder<T(!new)>(less: (T, T) -> bool) {
    && (forall a, b :: less(a, b) ==> !less(b, a))
    && (forall a, b, c :: less(a, c) ==> less(a, b) || less(b, c))
  }

  ghost predicate Sorted<T(!new)>(less: (T, T) -> bool, s: seq<T>) {
    forall i, j :: 0 <= i < j < |s| ==> !less(s[j], s[i])
  }

  /** Inserts `x` behind everything that is not strictly after it. */
  function Insert<T>(less: (T, T) -> bool, s: seq<T>, x: T): (r: seq<T>)
    ensures multiset(r) == multiset(s) + multiset{x}
  {
    if s == [] || less(x, s[0]) then
      [x] + s
    else
      assert s == [s[0]] + s[1..];
      [s[0]] + Insert(less, s[1..], x)
  }

  function SortBy<T>(less: (T, T) -> bool, s: seq<T>): (r: seq<T>)
    ensures multiset(r) == multiset(s)
  {
    if s == [] then
      []
    else
      var n := |s| - 1;
      assert s == s[..n] + [s[n]];
      Insert(less, SortBy(less, s[..n]), s[n])
  }

  lemma {:induction false} InsertSorted<T(!new)>(less: (T, T) -> bool, s: seq<T>, x: T)
    requires StrictWeakOrder(less) && Sorted(less, s)
    ensures Sorted(less, Insert(less, s, x))
  {
    if s == [] || less(x, s[0]) {
    } else {
      InsertSorted(less, s[1..], x);
      var r := Insert(less, s[1..], x);
      forall j | 0 <= j < |r| ensures !less(r[j], s[0]) {
        assert r[j] in multiset(r);
        assert r[j] == x || r[j] in s[1..];
      }
    }
  }

  lemma {:induction false} SortBySorts<T(!new)>(less: (T, T) -> bool, s: seq<T>)
    requires StrictWeakOrder(less)
    ensures Sorted(less, SortBy(less, s))
  {
    if s != [] {
      var n := |s| - 1;
      SortBySorts(less, s[..n]);
      InsertSorted(less, SortBy(less, s[..n]), s[n]);
    }
  }

  /** The first element of a sorted list has nothing of the original list strictly before it. */
  lemma SortedHead<T(!new)>(less: (T, T) -> bool, s: seq<T>)
    requires StrictWeakOrder(less) && s != []
    ensures SortBy(less, s) != [] && SortBy(less, s)[0] in s
    ensures forall x | x in s :: !less(x, SortBy(less, s)[0])
  {
    var r := SortBy(less, s);
    SortBySorts(less, s);
    assert |r| == |multiset(r)| == |s|;
    assert r[0] in multiset(r);
    forall x | x in s ensures !less(x, r[0]) {
      assert x in multiset(r);
      var j :| 0 <= j < |r| && r[j] == x;
    }
  }
}
