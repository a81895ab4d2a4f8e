/** Splitting and joining sequences at a separator, as Rust's `split_once`, `split` and `join` do. */
module Text {
  import opened Prelude

  /** The parts before and after the first `sep`, if there is one. */
  function SplitOnce<T(==)>(s: seq<T>, sep: T): (r: Option<(seq<T>, seq<T>)>)
    ensures r.None? <==> sep !in s
    ensures r.Some? ==> s == r.value.0 + [sep] + r.value.1 && sep !in r.value.0
  {
    if s == [] then None
    else if s[0] == sep then Some(([], s[1..]))
    else match SplitOnce(s[1..], sep)
      case None => None
      case Some((before, after)) => Some(([s[0]] + before, after))
  }

  /** There is only one way to cut at the first separator. */
  lemma SplitOnceAt<T>(before: seq<T>, sep: T, after: seq<T>)
    requires sep !in before
    ensures SplitOnce(before + [sep] + after, sep) == Some((before, after))
  {
    var s := before + [sep] + after;
    var (b, a) := SplitOnce(s, sep).value;
    assert s[|before|] == sep && s[|b|] == sep;
    assert |b| == |before| by {
      assert forall i :: 0 <= i < |before| ==> s[i] == before[i];
      assert forall i :: 0 <= i < |b| ==> s[i] == b[i];
    }
    assert b == s[..|b|] && before == s[..|before|];
    assert a == s[|b| + 1..] && after == s[|before| + 1..];
  }

  /** All the parts between separators; never empty. */
  function Split<T(==)>(s: seq<T>, sep: T): (parts: seq<seq<T>>)
    ensures |parts| >= 1
    ensures forall i :: 0 <= i < |parts| ==> sep !in parts[i]
    decreases |s|
  {
    match SplitOnce(s, sep)
    case None => [s]
    case Some((before, after)) => [before] + Split(after, sep)
  }

  function Join<T>(parts: seq<seq<T>>, sep: T): seq<T> {
    if parts == [] then []
    else if |parts| == 1 then parts[0]
    else parts[0] + [sep] + Join(parts[1..], sep)
  }

  lemma {:induction false} JoinSplit<T>(s: seq<T>, sep: T)
    ensures Join(Split(s, sep), sep) == s
    decreases |s|
  {
    match SplitOnce(s, sep)
    case None =>
    case Some((before, after)) =>
      JoinSplit(after, sep);
      assert Split(s, sep)[1..] == Split(after, sep);
  }

  lemma {:induction false} SplitJoin<T>(parts: seq<seq<T>>, sep: T)
    requires parts != [] && forall i :: 0 <= i < |parts| ==> sep !in parts[i]
    ensures Split(Join(parts, sep), sep) == parts
  {
    if |parts| > 1 {
      SplitOnceAt(parts[0], sep, Join(parts[1..], sep));
      SplitJoin(parts[1..], sep);
      assert parts == [parts[0]] + parts[1..];
    }
  }
}
