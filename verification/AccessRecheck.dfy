/**
 Re-checking access after a change: which sessions are closed, and which live proxied
 requests are ended. Both passes remember the verdicts they have; both are compared
 with the plain definition, for an authorization that stays as it is during the pass.
 */
module AccessRecheck {
  import opened Prelude
  import opened Sorted

  type SessionId = nat
  type User = nat
  type Target = nat

  datatype AccessChange = Users(users: set<User>) | Username(name: string) | Targets(targets: set<Target>) | All

  /** A target session joined with its user session. */
  datatype Access = Access(
    session: SessionId, user: Option<User>, target: Target,
    ended: bool, sessionEnded: bool, ticketed: bool, http: bool)

  /** What an authorization check comes back with. */
  datatype Check = Granted | Denied | Failed

  /** The config provider: user by name, authorization by user and target, and the public flag by target. */
  datatype Rules = Rules(named: string -> Option<User>, check: (User, Target) -> Check, shared: Target -> Check)

  // ----- Sessions -----

  /** still_authorised: a check that fails counts as a refusal. */
  predicate StillAuthorised(rules: Rules, user: User, target: Target) {
    rules.check(user, target).Granted?
  }

  predicate InScope(rules: Rules, change: AccessChange, row: Access) {
    match change
    case Users(users) => row.user.Some? && row.user.value in users
    case Username(name) => rules.named(name).Some? && row.user == rules.named(name)
    case Targets(targets) => row.target in targets
    case All => true
  }

  /** Open, not admitted by a ticket, not an HTTP browser session, and of a known user. */
  predicate Concerned(rules: Rules, change: AccessChange, row: Access) {
    !row.ended && !row.ticketed && !row.sessionEnded && row.user.Some? && !row.http && InScope(rules, change, row)
  }

  predicate Refused(rules: Rules, change: AccessChange, row: Access) {
    Concerned(rules, change, row) && !StillAuthorised(rules, row.user.value, row.target)
  }

  /** The sessions with a refused row. */
  function ToClose(rules: Rules, change: AccessChange, rows: seq<Access>): set<SessionId> {
    if rows == [] then {}
    else
      var n := |rows| - 1;
      ToClose(rules, change, rows[..n]) + if Refused(rules, change, rows[n]) then {rows[n].session} else {}
  }

  lemma {:induction false} ToCloseIs(rules: Rules, change: AccessChange, rows: seq<Access>, id: SessionId)
    ensures id in ToClose(rules, change, rows) <==> exists row :: row in rows && Refused(rules, change, row) && row.session == id
  {
    if rows != [] {
      var n := |rows| - 1;
      ToCloseIs(rules, change, rows[..n], id);
      assert rows == rows[..n] + [rows[n]];
    }
  }

  type Pair = (User, Target)

  /** Every verdict remembered is the one a fresh check would give. */
  predicate Remembered(rules: Rules, verdicts: map<Pair, bool>) {
    forall p :: p in verdicts ==> verdicts[p] == StillAuthorised(rules, p.0, p.1)
  }

  /** One row of the pass; `asked` if the check had to be made. */
  method Recheck(rules: Rules, verdicts: map<Pair, bool>, user: User, target: Target)
    returns (authorized: bool, after: map<Pair, bool>, asked: bool)
    requires Remembered(rules, verdicts)
    ensures authorized == StillAuthorised(rules, user, target) && Remembered(rules, after)
    ensures after.Keys == verdicts.Keys + {(user, target)} && |after.Keys| == |verdicts.Keys| + (if asked then 1 else 0)
  {
    SizeWithout(verdicts.Keys + {(user, target)}, (user, target));
    assert (user, target) !in verdicts ==> verdicts.Keys + {(user, target)} - {(user, target)} == verdicts.Keys;
    if (user, target) in verdicts {
      assert verdicts.Keys + {(user, target)} == verdicts.Keys;
      return verdicts[(user, target)], verdicts, false;
    }
    authorized := StillAuthorised(rules, user, target);
    return authorized, verdicts[(user, target) := authorized], true;
  }

  /** The pairs the pass has to decide. */
  function PairsIn(rules: Rules, change: AccessChange, rows: seq<Access>): set<Pair> {
    if rows == [] then {}
    else
      var n := |rows| - 1;
      PairsIn(rules, change, rows[..n]) + if Concerned(rules, change, rows[n]) then {(rows[n].user.value, rows[n].target)} else {}
  }

  function PairOf(row: Access): set<Pair> {
    if row.user.Some? then {(row.user.value, row.target)} else {}
  }

  lemma OneMoreRow(rules: Rules, change: AccessChange, rows: seq<Access>, n: nat)
    requires n < |rows|
    ensures ToClose(rules, change, rows[..n + 1]) ==
            ToClose(rules, change, rows[..n]) + if Refused(rules, change, rows[n]) then {rows[n].session} else {}
    ensures PairsIn(rules, change, rows[..n + 1]) ==
            PairsIn(rules, change, rows[..n]) + if Concerned(rules, change, rows[n]) then PairOf(rows[n]) else {}
  {
    assert rows[..n + 1][..n] == rows[..n];
  }

  /** One row of the pass. */
  method Visit(rules: Rules, change: AccessChange, row: Access, verdicts: map<Pair, bool>, found: set<SessionId>)
    returns (after: map<Pair, bool>, ids: set<SessionId>, checks: nat)
    requires Remembered(rules, verdicts)
    ensures Remembered(rules, after) && |after.Keys| == |verdicts.Keys| + checks
    ensures after.Keys == verdicts.Keys + if Concerned(rules, change, row) then PairOf(row) else {}
    ensures ids == found + if Refused(rules, change, row) then {row.session} else {}
  {
    if !Concerned(rules, change, row) {
      return verdicts, found, 0;
    }
    var authorized, remembered, asked := Recheck(rules, verdicts, row.user.value, row.target);
    return remembered, if authorized then found else found + {row.session}, if asked then 1 else 0;
  }

  /** The memoised pass finds exactly the sessions of the plain definition, and asks once per pair. */
  method SessionsToClose(rules: Rules, change: AccessChange, rows: seq<Access>) returns (ids: seq<SessionId>, checks: nat)
    ensures Ids(ids) == ToClose(rules, change, rows) && Ascending(ids)
    ensures checks == |PairsIn(rules, change, rows)|
  {
    var verdicts: map<Pair, bool> := map[];
    var found: set<SessionId> := {};
    checks := 0;
    for i := 0 to |rows|
      invariant Remembered(rules, verdicts)
      invariant verdicts.Keys == PairsIn(rules, change, rows[..i]) && checks == |verdicts.Keys|
      invariant found == ToClose(rules, change, rows[..i])
    {
      OneMoreRow(rules, change, rows, i);
      var asked;
      verdicts, found, asked := Visit(rules, change, rows[i], verdicts, found);
      checks := checks + asked;
    }
    assert rows[..|rows|] == rows;
    ids := Drained(found);
  }

  // ----- Live requests -----

  type StreamId = nat

  datatype Kind = RoleBased | Public

  datatype Stream = Stream(user: User, target: Target, kind: Kind)

  /** The rule that admitted a stream still holds. */
  predicate StillRuns(rules: Rules, s: Stream) {
    match s.kind
    case RoleBased => StillAuthorised(rules, s.user, s.target)
    case Public => rules.shared(s.target).Granted?
  }

  /** Every remembered answer about a public target is a fresh one. */
  predicate SharedKnown(rules: Rules, shared: map<Target, bool>) {
    forall t :: t in shared ==> shared[t] == rules.shared(t).Granted?
  }

  /** The streams of this user, target and kind. */
  function Like(streams: map<StreamId, Stream>, s: Stream): set<StreamId> {
    set id | id in streams && streams[id] == s
  }

  function LikeBeyond(streams: map<StreamId, Stream>, s: Stream, left: set<StreamId>): set<StreamId> {
    Like(streams, s) - left
  }

  lemma OneStreamMore(streams: map<StreamId, Stream>, s: Stream, left: set<StreamId>, id: StreamId)
    requires id in left && left <= streams.Keys
    ensures LikeBeyond(streams, s, left - {id}) == LikeBeyond(streams, s, left) + (if streams[id] == s then {id} else {})
    ensures id !in LikeBeyond(streams, s, left)
  {}

  method FindLike(streams: map<StreamId, Stream>, s: Stream) returns (found: set<StreamId>, count: nat)
    ensures found == Like(streams, s) && count == |found|
  {
    var left := streams.Keys;
    found, count := {}, 0;
    while left != {}
      invariant left <= streams.Keys && found == LikeBeyond(streams, s, left) && count == |found|
      decreases |left|
    {
      var id :| id in left;
      OneStreamMore(streams, s, left, id);
      if streams[id] == s {
        found := found + {id};
        count := count + 1;
      }
      left := left - {id};
    }
  }

  class LiveStreams {
    var streams: map<StreamId, Stream>
    var nextId: StreamId
    /** The streams whose cancel token has fired. */
    var cancelled: set<StreamId>

    constructor ()
      ensures Valid() && streams == map[] && cancelled == {}
    {
      streams, nextId, cancelled := map[], 0, {};
    }

    /** Ids are not reused. */
    ghost predicate Valid()
      reads this
    {
      (forall id :: id in streams ==> id < nextId) && forall id :: id in cancelled ==> id < nextId
    }

    method Register(s: Stream) returns (id: StreamId)
      requires Valid()
      modifies `streams, `nextId
      ensures Valid() && id !in old(streams) && id !in cancelled && streams == old(streams)[id := s]
    {
      id := nextId;
      nextId := nextId + 1;
      streams := streams[id := s];
    }

    /** Dropping a registration. */
    method Drop(id: StreamId)
      requires Valid()
      modifies `streams
      ensures Valid() && streams == old(streams) - {id}
    {
      streams := streams - {id};
    }

    function InUse(): set<Stream>
      reads this
    {
      streams.Values
    }

    /** Fires the token of every stream of this user, target and kind, and of no other. */
    method Cancel(s: Stream) returns (count: nat)
      requires Valid()
      modifies `cancelled
      ensures Valid() && cancelled == old(cancelled) + Like(streams, s) && count == |Like(streams, s)|
    {
      var fired;
      fired, count := FindLike(streams, s);
      cancelled := cancelled + fired;
    }

    /** reauthorize_live_streams: exactly the streams whose own rule fails are cancelled. */
    method Reauthorize(rules: Rules)
      requires Valid()
      modifies `cancelled
      ensures Valid()
      ensures forall id :: id in cancelled <==> id in old(cancelled) || (id in streams && !StillRuns(rules, streams[id]))
    {
      var shared: map<Target, bool> := map[];
      var left := InUse();
      while left != {}
        invariant Valid() && left <= streams.Values && SharedKnown(rules, shared)
        invariant forall id :: id in cancelled <==>
                    id in old(cancelled) || (id in streams && streams[id] !in left && !StillRuns(rules, streams[id]))
        decreases |left|
      {
        var s :| s in left;
        var allowed;
        allowed, shared := Allowed(rules, shared, s);
        if !allowed {
          var ended := Cancel(s);
        }
        left := left - {s};
      }
      assert forall id :: id in streams ==> streams[id] in streams.Values;
    }

    /** One stream's rule; a public target is looked up once in a pass. */
    static method Allowed(rules: Rules, shared: map<Target, bool>, s: Stream) returns (allowed: bool, after: map<Target, bool>)
      requires SharedKnown(rules, shared)
      ensures allowed == StillRuns(rules, s) && SharedKnown(rules, after)
    {
      if s.kind.RoleBased? {
        return StillAuthorised(rules, s.user, s.target), shared;
      }
      if s.target in shared {
        return shared[s.target], shared;
      }
      allowed := rules.shared(s.target).Granted?;
      return allowed, shared[s.target := allowed];
    }
  }
}
