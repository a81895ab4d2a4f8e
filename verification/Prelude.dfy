/** Small shared vocabulary: optional values, and counting the entries of a table. */
module Prelude {

  datatype Option<+T> = None | Some(value: T)

  function Matching<K, V>(table: map<K, V>, p: V -> bool): set<K> {
    set k | k in table && p(table[k])
  }

  /** How many entries of a table satisfy `p`. */
  function Count<K, V>(table: map<K, V>, p: V -> bool): nat {
    |Matching(table, p)|
  }

  lemma SizeWithout<K>(s: set<K>, k: K)
    ensures |s| == |s - {k}| + (if k in s then 1 else 0)
  {
    if k in s {
      assert s == (s - {k}) + {k};
    } else {
      assert s == s - {k};
    }
  }

  lemma MatchingWrite<K, V>(table: map<K, V>, k: K, v: V, p: V -> bool)
    ensures Matching(table[k := v], p) - {k} == Matching(table, p) - {k}
    ensures k in Matching(table[k := v], p) <==> p(v)
  {
    var written := table[k := v];
    assert forall x :: x != k ==> (x in written <==> x in table) && (x in table ==> written[x] == table[x]);
  }

  /** Writing one entry moves the count by that entry alone. */
  lemma CountWrite<K, V>(table: map<K, V>, k: K, v: V, p: V -> bool)
    ensures Count(table[k := v], p) ==
            Count(table, p) - (if k in table && p(table[k]) then 1 else 0) + (if p(v) then 1 else 0)
  {
    var before, after := Matching(table, p), Matching(table[k := v], p);
    SizeWithout(before, k);
    SizeWithout(after, k);
    MatchingWrite(table, k, v, p);
  }

  /** Removing entries that do not satisfy `p` leaves the count alone. */
  lemma CountRemove<K, V>(table: map<K, V>, gone: set<K>, p: V -> bool)
    requires forall k :: k in gone && k in table ==> !p(table[k])
    ensures Count(table - gone, p) == Count(table, p)
  {
    assert Matching(table - gone, p) == Matching(table, p);
  }

  /** A per-key tally, zero where nothing was recorded. */
  function Tally<K>(tallies: map<K, nat>, k: K): nat {
    if k in tallies then tallies[k] else 0
  }

  function Bump<K>(tallies: map<K, nat>, k: K): map<K, nat> {
    tallies[k := Tally(tallies, k) + 1]
  }

  function One(b: bool): nat { if b then 1 else 0 }

  /** How often `x` occurs. */
  function Times<T(==)>(s: seq<T>, x: T): nat {
    if s == [] then 0 else One(s[0] == x) + Times(s[1..], x)
  }

  lemma {:induction false} TimesBoth<T>(a: seq<T>, b: seq<T>, x: T)
    ensures Times(a + b, x) == Times(a, x) + Times(b, x)
  {
    if a == [] {
      assert a + b == b;
    } else {
      TimesBoth(a[1..], b, x);
      assert (a + b)[1..] == a[1..] + b;
    }
  }
}
