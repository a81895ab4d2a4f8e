/** Sets of ids listed in ascending order, as a BTreeSet iterates and as sorting and deduplicating a vector does. */
module Sorted {
  import opened Prelude

  function Ids(ids: seq<nat>): set<nat> {
    set id | id in ids
  }

  predicate Ascending(ids: seq<nat>) {
    forall i, j :: 0 <= i < j < |ids| ==> ids[i] < ids[j]
  }

  predicate IsLeast(ids: set<nat>, least: nat) {
    least in ids && forall id :: id in ids ==> least <= id
  }

  lemma {:induction false} HasLeast(ids: set<nat>)
    requires ids != {}
    ensures exists least :: IsLeast(ids, least)
    decreases |ids|
  {
    var some :| some in ids;
    var rest := ids - {some};
    assert forall id :: id in ids ==> id == some || id in rest;
    if rest == {} {
      assert IsLeast(ids, some);
    } else {
      SizeWithout(ids, some);
      HasLeast(rest);
      var least :| IsLeast(rest, least);
      assert IsLeast(ids, if some < least then some else least);
    }
  }

  /** Everything listed comes before everything left. */
  predicate Before(ids: seq<nat>, left: set<nat>) {
    forall i, id :: 0 <= i < |ids| && id in left ==> ids[i] < id
  }

  lemma AppendLeast(ids: seq<nat>, left: set<nat>, least: nat)
    requires Ascending(ids) && Before(ids, left) && IsLeast(left, least)
    ensures Ascending(ids + [least]) && Before(ids + [least], left - {least})
    ensures Ids(ids + [least]) == Ids(ids) + {least}
  {}

  /** The set's order is the order a BTreeSet is drained in. */
  method Drained(waiting: set<nat>) returns (ids: seq<nat>)
    ensures Ids(ids) == waiting && |ids| == |waiting| && Ascending(ids)
  {
    ids := [];
    var left := waiting;
    while left != {}
      invariant left <= waiting && Ids(ids) == waiting - left && |ids| + |left| == |waiting|
      invariant Ascending(ids) && Before(ids, left)
      decreases |left|
    {
      HasLeast(left);
      var least :| IsLeast(left, least);
      AppendLeast(ids, left, least);
      SizeWithout(left, least);
      ids, left := ids + [least], left - {least};
    }
  }

  lemma Taking(ids: seq<nat>, m: nat, n: nat)
    requires Ascending(ids) && m <= n <= |ids|
    ensures Ids(ids[m..n]) <= Ids(ids[m..]) && Ids(ids[m..]) - Ids(ids[m..n]) == Ids(ids[n..])
    ensures Ascending(ids[m..n]) && ids[..n] == ids[..m] + ids[m..n]
  {
    assert ids[m..] == ids[m..n] + ids[n..];
    assert forall i, j :: 0 <= i < n - m && 0 <= j < |ids| - n ==> ids[m..n][i] != ids[n..][j];
  }

  lemma OneMore(ids: seq<nat>, i: nat)
    requires Ascending(ids) && i < |ids|
    ensures ids[..i + 1] == ids[..i] + [ids[i]] && ids[i] !in ids[..i] && ids[i] in Ids(ids)
    ensures Ids(ids[..i + 1]) == Ids(ids[..i]) + {ids[i]}
  {
    assert ids[..i + 1] == ids[..i] + [ids[i]];
  }
}
