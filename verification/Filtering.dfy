/**
 What it means for a list to be a filter of another one, said by places and not by recursion:
 the source's `filter`, `some` and accumulating loops are specified with it.
 */
module Filtering {

  /** Element k of `sub` is the one that stands at `at[k]` in `whole`; exactly the kept elements have a place. */
  ghost predicate PicksAt<T(!new)>(sub: seq<T>, whole: seq<T>, keep: T -> bool, at: seq<nat>) {
    && |at| == |sub|
    && (forall k | 0 <= k < |at| :: at[k] < |whole| && sub[k] == whole[at[k]])
    && (forall j, k :: 0 <= j < k < |at| ==> at[j] < at[k])
    && (forall i: nat | i < |whole| :: i in at <==> keep(whole[i]))
  }

  /** `sub` lists exactly the elements of `whole` that satisfy `keep`, in their order. */
  ghost predicate Picks<T(!new)>(sub: seq<T>, whole: seq<T>, keep: T -> bool) {
    exists at: seq<nat> :: PicksAt(sub, whole, keep, at)
  }

  /** Where the elements with a property stand. */
  function Places<T>(s: seq<T>, p: T -> bool): set<nat> {
    set i: nat | i < |s| && p(s[i])
  }

  lemma PlacesOneMore<T>(s: seq<T>, p: T -> bool)
    requires s != []
    ensures |Places(s, p)| == |Places(s[..|s| - 1], p)| + if p(s[|s| - 1]) then 1 else 0
  {
    var n := |s| - 1;
    assert Places(s, p) == Places(s[..n], p) + if p(s[n]) then {n} else {};
  }

  lemma NoPlaces<T>(p: T -> bool)
    ensures |Places([], p)| == 0
  {
    assert Places([], p) == {};
  }

  lemma PicksNone<T(!new)>(keep: T -> bool)
    ensures Picks([], [], keep)
  {
    assert PicksAt([], [], keep, []);
  }

  lemma PicksOneMore<T(!new)>(sub: seq<T>, whole: seq<T>, keep: T -> bool, x: T)
    requires Picks(sub, whole, keep)
    ensures Picks(if keep(x) then sub + [x] else sub, whole + [x], keep)
  {
    var at: seq<nat> :| PicksAt(sub, whole, keep, at);
    assert forall k | 0 <= k < |at| :: at[k] in at;
    if keep(x) {
      KeptOneMore(sub, whole, keep, x, at);
    } else {
      assert PicksAt(sub, whole + [x], keep, at);
    }
  }

  lemma KeptOneMore<T(!new)>(sub: seq<T>, whole: seq<T>, keep: T -> bool, x: T, at: seq<nat>)
    requires PicksAt(sub, whole, keep, at) && keep(x)
    ensures PicksAt(sub + [x], whole + [x], keep, at + [|whole|])
  {
    var more: seq<nat> := at + [|whole|];
    assert more[|at|] == |whole| && forall k | 0 <= k < |at| :: more[k] == at[k];
    forall i: nat | i < |whole| + 1 ensures i in more <==> keep((whole + [x])[i]) {
      assert i in more <==> i in at || i == |whole|;
      assert i < |whole| ==> (whole + [x])[i] == whole[i];
    }
  }

  /** There is only one such list. */
  lemma {:induction false} PicksUnique<T(!new)>(a: seq<T>, b: seq<T>, whole: seq<T>, keep: T -> bool)
    requires Picks(a, whole, keep) && Picks(b, whole, keep)
    ensures a == b
  {
    var p: seq<nat> :| PicksAt(a, whole, keep, p);
    var q: seq<nat> :| PicksAt(b, whole, keep, q);
    SamePlaces(p, q, |whole|);
  }

  lemma {:induction false} SamePlaces(p: seq<nat>, q: seq<nat>, n: nat)
    requires forall j, k :: 0 <= j < k < |p| ==> p[j] < p[k]
    requires forall j, k :: 0 <= j < k < |q| ==> q[j] < q[k]
    requires forall i: nat | i < n :: i in p <==> i in q
    requires (forall k | 0 <= k < |p| :: p[k] < n) && (forall k | 0 <= k < |q| :: q[k] < n)
    ensures p == q
    decreases |p|
  {
    if q != [] {
      assert q[|q| - 1] in q && q[|q| - 1] in p;
    }
    if p != [] {
      var m, k := |p| - 1, |q| - 1;
      assert p[m] in p && p[m] in q;
      assert p[m] == q[k];
      assert p == p[..m] + [p[m]] && q == q[..k] + [q[k]];
      forall i: nat | i < p[m] ensures i in p[..m] <==> i in q[..k] {
        assert i in p <==> i in q;
      }
      SamePlaces(p[..m], q[..k], p[m]);
    }
  }
}
