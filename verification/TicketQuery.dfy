/**
 Removing the ticket parameter from a URL, and what a form decoder (section 5 of the
 WHATWG URL Standard) then reads from it. A string is the sequence of its UTF-8 bytes;
 `lossy` is the decoding of bytes that need not be UTF-8.
 */
module TicketQuery {
  import opened Prelude
  import opened Text
  import opened Base64

  const HASH: Byte := 35
  const PERCENT: Byte := 37
  const AMPERSAND: Byte := 38
  const PLUS: Byte := 43
  const EQUALS: Byte := 61
  const QUESTION: Byte := 63
  const SPACE: Byte := 32
  const TICKET: Bytes := [119, 97, 114, 112, 103, 97, 116, 101, 45, 116, 105, 99, 107, 101, 116] // warpgate-ticket

  type Lossy = Bytes -> Bytes

  // ----- Form decoding -----

  function HexValue(b: Byte): Option<int> {
    if 48 <= b < 58 then Some(b - 48)
    else if 65 <= b < 71 then Some(b - 55)
    else if 97 <= b < 103 then Some(b - 87)
    else None
  }

  /** `+` is a space, `%XX` a byte, and a `%` without two hex digits stands for itself. */
  function Unescaped(s: Bytes): Bytes {
    if s == [] then []
    else if s[0] == PLUS then [SPACE] + Unescaped(s[1..])
    else if s[0] == PERCENT && |s| >= 3 && HexValue(s[1]).Some? && HexValue(s[2]).Some?
    then [HexByte(s[1], s[2])] + Unescaped(s[3..])
    else [s[0]] + Unescaped(s[1..])
  }

  function HexByte(high: Byte, low: Byte): Byte
    requires HexValue(high).Some? && HexValue(low).Some?
  {
    16 * HexValue(high).value + HexValue(low).value
  }

  datatype Pair = Pair(name: Bytes, value: Bytes)

  function PairOf(lossy: Lossy, part: Bytes): Pair {
    match SplitOnce(part, EQUALS)
    case None => Pair(lossy(Unescaped(part)), lossy([]))
    case Some((name, value)) => Pair(lossy(Unescaped(name)), lossy(Unescaped(value)))
  }

  /** The pairs of the parts that are not empty. */
  function PairsOf(lossy: Lossy, parts: seq<Bytes>): seq<Pair> {
    if parts == [] then []
    else (if parts[0] == [] then [] else [PairOf(lossy, parts[0])]) + PairsOf(lossy, parts[1..])
  }

  /** form_urlencoded::parse. */
  function Parse(lossy: Lossy, query: Bytes): seq<Pair> {
    PairsOf(lossy, Split(query, AMPERSAND))
  }

  // ----- The rewrite -----

  /** A URL cut at its first `#`, and what precedes it at its first `?`. */
  datatype Url = Url(base: Bytes, query: Option<Bytes>, fragment: Option<Bytes>)

  function Cut(url: Bytes): (u: Url)
    ensures Cuttable(u) && Glue(u) == url
  {
    var (before, fragment) := match SplitOnce(url, HASH)
      case Some((before, fragment)) => (before, Some(fragment))
      case None => (url, None);
    match SplitOnce(before, QUESTION)
    case Some((base, query)) => Url(base, Some(query), fragment)
    case None => Url(before, None, fragment)
  }

  function Glue(u: Url): Bytes {
    u.base + (if u.query.Some? then [QUESTION] + u.query.value else [])
    + (if u.fragment.Some? then [HASH] + u.fragment.value else [])
  }

  predicate Cuttable(u: Url) {
    HASH !in u.base && QUESTION !in u.base && (u.query.Some? ==> HASH !in u.query.value)
  }

  predicate IsTicketQueryPair(lossy: Lossy, pair: Bytes) {
    Parse(lossy, pair) != [] && Parse(lossy, pair)[0].name == TICKET
  }

  predicate HasTicket(lossy: Lossy, parts: seq<Bytes>) {
    exists i :: 0 <= i < |parts| && IsTicketQueryPair(lossy, parts[i])
  }

  /** The parts that do not carry a ticket. */
  function Kept(lossy: Lossy, parts: seq<Bytes>): seq<Bytes> {
    if parts == [] then []
    else if IsTicketQueryPair(lossy, parts[0]) then Kept(lossy, parts[1..])
    else [parts[0]] + Kept(lossy, parts[1..])
  }

  function WithoutTicket(lossy: Lossy, url: Bytes): Bytes {
    var u := Cut(url);
    if u.query.None? || !HasTicket(lossy, Split(u.query.value, AMPERSAND)) then url
    else Glue(u.(query := Rest(lossy, u.query.value)))
  }

  /** What is left of a query that holds a ticket. */
  function Rest(lossy: Lossy, query: Bytes): Option<Bytes> {
    var rest := Join(Kept(lossy, Split(query, AMPERSAND)), AMPERSAND);
    if rest == [] then None else Some(rest)
  }

  // ----- What a decoder reads afterwards -----

  /** The pairs a decoder reads from a URL's query. */
  function QueryPairs(lossy: Lossy, url: Bytes): seq<Pair> {
    match Cut(url).query
    case None => []
    case Some(query) => Parse(lossy, query)
  }

  function Others(pairs: seq<Pair>): seq<Pair> {
    if pairs == [] then []
    else (if pairs[0].name == TICKET then [] else [pairs[0]]) + Others(pairs[1..])
  }

  /** A URL whose parts avoid their separators is cut where it was glued. */
  lemma CutGlue(u: Url)
    requires Cuttable(u)
    ensures Cut(Glue(u)) == u
  {
    var before := u.base + (if u.query.Some? then [QUESTION] + u.query.value else []);
    assert HASH !in before;
    if u.fragment.Some? {
      assert Glue(u) == before + [HASH] + u.fragment.value;
      SplitOnceAt(before, HASH, u.fragment.value);
    } else {
      assert Glue(u) == before;
    }
    if u.query.Some? {
      assert before == u.base + [QUESTION] + u.query.value;
      SplitOnceAt(u.base, QUESTION, u.query.value);
    } else {
      assert before == u.base;
    }
  }

  lemma {:induction false} SplitAvoids(s: Bytes, sep: Byte, b: Byte)
    requires b !in s
    ensures forall i :: 0 <= i < |Split(s, sep)| ==> b !in Split(s, sep)[i]
    decreases |s|
  {
    if SplitOnce(s, sep).Some? {
      SplitAvoids(SplitOnce(s, sep).value.1, sep, b);
    }
  }

  lemma {:induction false} JoinAvoids(parts: seq<Bytes>, sep: Byte, b: Byte)
    requires b != sep && forall i :: 0 <= i < |parts| ==> b !in parts[i]
    ensures b !in Join(parts, sep)
  {
    if |parts| > 1 {
      JoinAvoids(parts[1..], sep, b);
    }
  }

  /** A part between ampersands is read as the one pair it is, or as none if it is empty. */
  lemma PartIsPair(lossy: Lossy, part: Bytes)
    requires AMPERSAND !in part
    ensures Parse(lossy, part) == if part == [] then [] else [PairOf(lossy, part)]
  {
    assert Split(part, AMPERSAND) == [part];
    assert PairsOf(lossy, [part][1..]) == [];
  }

  lemma {:induction false} KeptPairs(lossy: Lossy, parts: seq<Bytes>)
    requires forall i :: 0 <= i < |parts| ==> AMPERSAND !in parts[i]
    ensures PairsOf(lossy, Kept(lossy, parts)) == Others(PairsOf(lossy, parts))
  {
    if parts != [] {
      var rest := parts[1..];
      PartIsPair(lossy, parts[0]);
      KeptPairs(lossy, rest);
      if parts[0] == [] {
        assert PairsOf(lossy, parts) == PairsOf(lossy, rest);
      } else {
        assert PairsOf(lossy, parts)[1..] == PairsOf(lossy, rest);
      }
      if IsTicketQueryPair(lossy, parts[0]) {
        assert Kept(lossy, parts) == Kept(lossy, rest);
      } else {
        assert Kept(lossy, parts)[1..] == Kept(lossy, rest);
      }
    }
  }

  lemma {:induction false} KeptAre(lossy: Lossy, parts: seq<Bytes>)
    ensures forall i :: 0 <= i < |Kept(lossy, parts)| ==>
              Kept(lossy, parts)[i] in parts && !IsTicketQueryPair(lossy, Kept(lossy, parts)[i])
    ensures !HasTicket(lossy, Kept(lossy, parts))
  {
    if parts != [] {
      KeptAre(lossy, parts[1..]);
    }
  }

  lemma RestParts(lossy: Lossy, query: Bytes)
    ensures Rest(lossy, query).Some? ==> Split(Rest(lossy, query).value, AMPERSAND) == Kept(lossy, Split(query, AMPERSAND))
    ensures Rest(lossy, query).None? ==> PairsOf(lossy, Kept(lossy, Split(query, AMPERSAND))) == []
    ensures HASH !in query && Rest(lossy, query).Some? ==> HASH !in Rest(lossy, query).value
  {
    var parts := Split(query, AMPERSAND);
    var kept := Kept(lossy, parts);
    KeptAre(lossy, parts);
    if kept != [] {
      SplitJoin(kept, AMPERSAND);
    }
    if Rest(lossy, query).None? && kept != [] {
      assert kept == Split([], AMPERSAND) == [[]];
    }
    if HASH !in query {
      SplitAvoids(query, AMPERSAND, HASH);
      JoinAvoids(kept, AMPERSAND, HASH);
    }
  }

  /** Base and fragment stay; the query becomes its rest. */
  lemma RewrittenCut(lossy: Lossy, url: Bytes)
    requires Cut(url).query.Some? && HasTicket(lossy, Split(Cut(url).query.value, AMPERSAND))
    ensures Cut(WithoutTicket(lossy, url)) == Cut(url).(query := Rest(lossy, Cut(url).query.value))
  {
    RestParts(lossy, Cut(url).query.value);
    CutGlue(Cut(url).(query := Rest(lossy, Cut(url).query.value)));
  }

  lemma BaseAndFragmentStay(lossy: Lossy, url: Bytes)
    ensures Cut(WithoutTicket(lossy, url)).base == Cut(url).base && Cut(WithoutTicket(lossy, url)).fragment == Cut(url).fragment
  {
    if Cut(url).query.Some? && HasTicket(lossy, Split(Cut(url).query.value, AMPERSAND)) {
      RewrittenCut(lossy, url);
    }
  }

  lemma {:induction false} NoTicketNoneDropped(lossy: Lossy, parts: seq<Bytes>)
    requires !HasTicket(lossy, parts)
    ensures Kept(lossy, parts) == parts
  {
    if parts != [] {
      assert !IsTicketQueryPair(lossy, parts[0]);
      forall i | 0 <= i < |parts[1..]| ensures !IsTicketQueryPair(lossy, parts[1..][i]) {
        assert parts[1..][i] == parts[i + 1];
      }
      NoTicketNoneDropped(lossy, parts[1..]);
    }
  }

  /** A decoder reads the same pairs as before, in order, without exactly the ticket ones. */
  lemma OtherPairsStay(lossy: Lossy, url: Bytes)
    ensures QueryPairs(lossy, WithoutTicket(lossy, url)) == Others(QueryPairs(lossy, url))
  {
    if Cut(url).query.Some? {
      var query := Cut(url).query.value;
      var parts := Split(query, AMPERSAND);
      KeptPairs(lossy, parts);
      if HasTicket(lossy, parts) {
        RewrittenCut(lossy, url);
        RestParts(lossy, query);
      } else {
        NoTicketNoneDropped(lossy, parts);
      }
    }
  }

  /** Rewriting twice is rewriting once. */
  lemma RewriteIsIdempotent(lossy: Lossy, url: Bytes)
    ensures WithoutTicket(lossy, WithoutTicket(lossy, url)) == WithoutTicket(lossy, url)
  {
    if Cut(url).query.Some? && HasTicket(lossy, Split(Cut(url).query.value, AMPERSAND)) {
      RewrittenCut(lossy, url);
      RestParts(lossy, Cut(url).query.value);
      KeptAre(lossy, Split(Cut(url).query.value, AMPERSAND));
    }
  }

  lemma {:induction false} NoneNamedMeansNoTicket(lossy: Lossy, parts: seq<Bytes>)
    requires forall i :: 0 <= i < |parts| ==> AMPERSAND !in parts[i]
    ensures HasTicket(lossy, parts) <==> exists p :: p in PairsOf(lossy, parts) && p.name == TICKET
  {
    if parts != [] {
      var rest := parts[1..];
      PartIsPair(lossy, parts[0]);
      NoneNamedMeansNoTicket(lossy, rest);
      assert HasTicket(lossy, parts) <==> IsTicketQueryPair(lossy, parts[0]) || HasTicket(lossy, rest) by {
        assert parts == [parts[0]] + rest;
        assert forall i :: 0 <= i < |rest| ==> parts[i + 1] == rest[i];
      }
    }
  }

  /** The URL is left alone exactly when no pair of it is a ticket. */
  lemma UnchangedIffNoTicket(lossy: Lossy, url: Bytes)
    ensures WithoutTicket(lossy, url) == url <==> forall p :: p in QueryPairs(lossy, url) ==> p.name != TICKET
  {
    if Cut(url).query.Some? {
      NoneNamedMeansNoTicket(lossy, Split(Cut(url).query.value, AMPERSAND));
      OtherPairsStay(lossy, url);
      OthersAre(QueryPairs(lossy, url));
    }
  }

  lemma {:induction false} OthersAre(pairs: seq<Pair>)
    ensures forall p :: p in Others(pairs) <==> p in pairs && p.name != TICKET
  {
    if pairs != [] {
      OthersAre(pairs[1..]);
      assert pairs == [pairs[0]] + pairs[1..];
    }
  }

  // ----- The call -----

  lemma {:induction false} OnePartMore(lossy: Lossy, parts: seq<Bytes>, n: nat)
    requires n < |parts|
    ensures Kept(lossy, parts[..n + 1]) == Kept(lossy, parts[..n]) + if IsTicketQueryPair(lossy, parts[n]) then [] else [parts[n]]
    decreases n
  {
    if n > 0 {
      OnePartMore(lossy, parts[1..], n - 1);
      assert parts[..n + 1][1..] == parts[1..][..n] && parts[..n][1..] == parts[1..][..n - 1];
    } else {
      assert parts[..1] == [parts[0]];
    }
  }

  lemma FoundSoFar(lossy: Lossy, parts: seq<Bytes>, n: nat)
    requires n < |parts|
    ensures HasTicket(lossy, parts[..n + 1]) <==> HasTicket(lossy, parts[..n]) || IsTicketQueryPair(lossy, parts[n])
  {
    if i :| 0 <= i < n && IsTicketQueryPair(lossy, parts[..n][i]) {
      assert IsTicketQueryPair(lossy, parts[..n + 1][i]);
    }
    if IsTicketQueryPair(lossy, parts[n]) {
      assert IsTicketQueryPair(lossy, parts[..n + 1][n]);
    }
  }

  lemma {:induction false} JoinMore(parts: seq<Bytes>, part: Bytes, sep: Byte)
    requires parts != []
    ensures Join(parts + [part], sep) == Join(parts, sep) + [sep] + part
  {
    if |parts| > 1 {
      JoinMore(parts[1..], part, sep);
      assert (parts + [part])[1..] == parts[1..] + [part];
      assert parts[0] + [sep] + (Join(parts[1..], sep) + [sep] + part) == parts[0] + [sep] + Join(parts[1..], sep) + [sep] + part;
    }
  }

  /** The query's parts but the ticket ones, joined again; `found` if there was one. */
  method Filtered(lossy: Lossy, query: Bytes) returns (found: bool, rest: Bytes)
    ensures found == HasTicket(lossy, Split(query, AMPERSAND))
    ensures rest == Join(Kept(lossy, Split(query, AMPERSAND)), AMPERSAND)
  {
    var parts := Split(query, AMPERSAND);
    ghost var kept: seq<Bytes> := [];
    found, rest := false, [];
    var first := true;
    for i := 0 to |parts|
      invariant found == HasTicket(lossy, parts[..i])
      invariant kept == Kept(lossy, parts[..i]) && rest == Join(kept, AMPERSAND) && first == (kept == [])
    {
      OnePartMore(lossy, parts, i);
      FoundSoFar(lossy, parts, i);
      if IsTicketQueryPair(lossy, parts[i]) {
        found := true;
      } else {
        if first {
          rest, first := parts[i], false;
        } else {
          JoinMore(kept, parts[i], AMPERSAND);
          rest := rest + [AMPERSAND] + parts[i];
        }
        kept := kept + [parts[i]];
      }
    }
    assert parts[..|parts|] == parts;
  }

  /** The result is built up in place. */
  method Append(base: Bytes, query: Bytes, fragment: Option<Bytes>) returns (rewritten: Bytes)
    ensures rewritten == Glue(Url(base, if query == [] then None else Some(query), fragment))
  {
    rewritten := base;
    if query != [] {
      rewritten := rewritten + [QUESTION];
      rewritten := rewritten + query;
    }
    assert rewritten == base + if query == [] then [] else [QUESTION] + query;
    if fragment.Some? {
      rewritten := rewritten + [HASH];
      rewritten := rewritten + fragment.value;
    }
  }

  /**
   without_ticket_query_param: a decoder reads the other pairs as before, base and fragment
   stay, doing it again changes nothing, and a URL without a ticket is returned as it is.
   */
  method WithoutTicketQueryParam(lossy: Lossy, url: Bytes) returns (rewritten: Bytes)
    ensures QueryPairs(lossy, rewritten) == Others(QueryPairs(lossy, url))
    ensures Cut(rewritten).base == Cut(url).base && Cut(rewritten).fragment == Cut(url).fragment
    ensures rewritten == url <==> forall p :: p in QueryPairs(lossy, url) ==> p.name != TICKET
    ensures WithoutTicket(lossy, rewritten) == rewritten
  {
    OtherPairsStay(lossy, url);
    BaseAndFragmentStay(lossy, url);
    UnchangedIffNoTicket(lossy, url);
    RewriteIsIdempotent(lossy, url);
    var u := Cut(url);
    if u.query.None? {
      return url;
    }
    var found, rest := Filtered(lossy, u.query.value);
    if !found {
      return url;
    }
    rewritten := Append(u.base, rest, u.fragment);
  }
}
