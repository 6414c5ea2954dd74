/**
 * `orderBy: { createdAt: 'desc' }`: the ids of a table listed by descending creation time.
 * Rows with equal times may come in any order.
 */
module Ordering {

  /** A non-empty set has a member. */
  lemma Inhabited(s: set<int>)
    requires s != {}
    ensures exists k :: k in s
  {
    if forall k :: k !in s {
      assert false;
    }
  }

  /** No id is listed twice. */
  predicate Distinct(ids: seq<int>) {
    forall i, j :: 0 <= i < j < |ids| ==> ids[i] != ids[j]
  }

  /** The listed ids have non-increasing keys. */
  predicate SortedDesc(ids: seq<int>, key: map<int, int>)
    requires forall i :: 0 <= i < |ids| ==> ids[i] in key
  {
    forall i, j :: 0 <= i < j < |ids| ==> key[ids[i]] >= key[ids[j]]
  }

  /** An id of `s` with the largest key. */
  method LatestOf(s: set<int>, key: map<int, int>) returns (top: int)
    requires s != {} && s <= key.Keys
    ensures top in s
    ensures forall k :: k in s ==> key[k] <= key[top]
  {
    Inhabited(s);
    top :| top in s;
    var rest := s - {top};
    while rest != {}
      invariant rest <= s && top in s
      invariant forall k :: k in s - rest ==> key[k] <= key[top]
      decreases rest
    {
      Inhabited(rest);
      var k :| k in rest;
      if key[k] > key[top] {
        top := k;
      }
      rest := rest - {k};
    }
  }

  /** Every id of `key` exactly once, by descending key. */
  method OrderByDesc(key: map<int, int>) returns (ids: seq<int>)
    ensures |ids| == |key|
    ensures forall i :: 0 <= i < |ids| ==> ids[i] in key
    ensures forall k :: k in key ==> k in ids
    ensures Distinct(ids)
    ensures SortedDesc(ids, key)
  {
    ids := [];
    var remaining := key.Keys;
    while remaining != {}
      invariant remaining <= key.Keys
      invariant |ids| + |remaining| == |key|
      invariant forall i :: 0 <= i < |ids| ==> ids[i] in key && ids[i] !in remaining
      invariant forall k :: k in key ==> k in remaining || k in ids
      invariant Distinct(ids)
      invariant SortedDesc(ids, key)
      invariant forall i, k :: 0 <= i < |ids| && k in remaining ==> key[ids[i]] >= key[k]
      decreases remaining
    {
      var top := LatestOf(remaining, key);
      ids := ids + [top];
      remaining := remaining - {top};
    }
  }

  /** The least element of a non-empty set of ids. */
  lemma {:induction false} Least(ids: set<int>) returns (least: int)
    requires ids != {}
    ensures least in ids
    ensures forall k :: k in ids ==> least <= k
    decreases ids
  {
    Inhabited(ids);
    var x :| x in ids;
    if ids == {x} {
      least := x;
    } else {
      var m := Least(ids - {x});
      least := if x < m then x else m;
      forall k | k in ids
        ensures least <= k
      {
        if k != x {
          assert k in ids - {x};
        }
      }
    }
  }

  lemma LeastExists(ids: set<int>)
    requires ids != {}
    ensures exists id :: id in ids && forall k :: k in ids ==> id <= k
  {
    var least := Least(ids);
    assert least in ids && forall k :: k in ids ==> least <= k;
  }

  /** `findFirst()` with no ordering: the row with the least id. */
  function FirstId(ids: set<int>): (id: int)
    requires ids != {}
    ensures id in ids
    ensures forall k :: k in ids ==> id <= k
  {
    LeastExists(ids);
    var id :| id in ids && forall k :: k in ids ==> id <= k;
    id
  }
}
