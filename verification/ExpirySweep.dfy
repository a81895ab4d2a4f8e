/**
 The periodic sweep over expired role assignments and over access changes whose
 re-check failed. Time is a number; the sweep's clock is whatever it reads.
 */
module ExpirySweep {
  import opened Prelude
  import opened AccessRecheck

  type Time = int

  datatype Assignment = Assignment(user: User, expires: Option<Time>, revoked: bool)

  predicate ActiveAt(a: Assignment, t: Time) {
    !a.revoked && (a.expires.Some? ==> a.expires.value > t)
  }

  /** The assignments one sweep takes: expired after `since`, and no later than `now`. */
  datatype Window = Window(since: Option<Time>, now: Time)

  predicate Covers(w: Window, e: Time) {
    e <= w.now && (w.since.Some? ==> e > w.since.value)
  }

  predicate Expired(a: Assignment, w: Window) {
    !a.revoked && a.expires.Some? && Covers(w, a.expires.value)
  }

  // ----- Windows -----

  /** One tick of the loop: the time it read, and whether the query went through. */
  datatype Tick = Tick(now: Time, ok: bool)

  /** Where the sweep stands after some ticks: a failed one leaves it where it was. */
  function SweptUntil(ticks: seq<Tick>): Option<Time> {
    if ticks == [] then None
    else if ticks[|ticks| - 1].ok then Some(ticks[|ticks| - 1].now)
    else SweptUntil(ticks[..|ticks| - 1])
  }

  /** The windows of the ticks that went through. */
  function Windows(ticks: seq<Tick>): seq<Window> {
    if ticks == [] then []
    else
      var before, last := ticks[..|ticks| - 1], ticks[|ticks| - 1];
      if last.ok then Windows(before) + [Window(SweptUntil(before), last.now)] else Windows(before)
  }

  /** How many of the windows take an assignment that expires at `e`. */
  function TimesSwept(windows: seq<Window>, e: Time): nat {
    if windows == [] then 0
    else TimesSwept(windows[..|windows| - 1], e) + if Covers(windows[|windows| - 1], e) then 1 else 0
  }

  predicate ClockIsMonotone(ticks: seq<Tick>) {
    forall i, j :: 0 <= i < j < |ticks| ==> ticks[i].now <= ticks[j].now
  }

  lemma {:induction false} SweptUntilIsPast(ticks: seq<Tick>)
    requires ClockIsMonotone(ticks) && SweptUntil(ticks).Some?
    ensures ticks != [] && SweptUntil(ticks).value <= ticks[|ticks| - 1].now
  {
    if !ticks[|ticks| - 1].ok {
      SweptUntilIsPast(ticks[..|ticks| - 1]);
    }
  }

  lemma OneTickMore(ticks: seq<Tick>, e: Time)
    requires ticks != []
    ensures var before, last := ticks[..|ticks| - 1], ticks[|ticks| - 1];
            TimesSwept(Windows(ticks), e) ==
            TimesSwept(Windows(before), e) + if last.ok && Covers(Window(SweptUntil(before), last.now), e) then 1 else 0
  {
    var before, last := ticks[..|ticks| - 1], ticks[|ticks| - 1];
    if last.ok {
      assert Windows(ticks)[..|Windows(ticks)| - 1] == Windows(before);
    }
  }

  /** With a monotone clock the windows tile the past: what has expired was swept once, the rest not yet. */
  lemma {:induction false} SweptExactlyOnce(ticks: seq<Tick>, e: Time)
    requires ClockIsMonotone(ticks)
    ensures TimesSwept(Windows(ticks), e) == if SweptUntil(ticks).Some? && e <= SweptUntil(ticks).value then 1 else 0
    decreases |ticks|
  {
    if ticks != [] {
      var before := ticks[..|ticks| - 1];
      OneTickMore(ticks, e);
      SweptExactlyOnce(before, e);
      if SweptUntil(before).Some? {
        SweptUntilIsPast(before);
      }
    }
  }

  // ----- Any clock -----

  /** The latest time any sweep has reached. */
  function Furthest(ticks: seq<Tick>): Option<Time> {
    if ticks == [] then None
    else
      var before, last := Furthest(ticks[..|ticks| - 1]), ticks[|ticks| - 1];
      if !last.ok || (before.Some? && last.now <= before.value) then before else Some(last.now)
  }

  lemma {:induction false} FurthestIsAhead(ticks: seq<Tick>)
    ensures SweptUntil(ticks).Some? <==> Furthest(ticks).Some?
    ensures SweptUntil(ticks).Some? ==> SweptUntil(ticks).value <= Furthest(ticks).value
  {
    if ticks != [] {
      FurthestIsAhead(ticks[..|ticks| - 1]);
    }
  }

  /** Whatever the clock does, an expiry was swept if and only if a sweep has reached it. */
  lemma {:induction false} SweptIffReached(ticks: seq<Tick>, e: Time)
    ensures TimesSwept(Windows(ticks), e) >= 1 <==> Furthest(ticks).Some? && e <= Furthest(ticks).value
    decreases |ticks|
  {
    if ticks != [] {
      var before := ticks[..|ticks| - 1];
      OneTickMore(ticks, e);
      SweptIffReached(before, e);
      FurthestIsAhead(before);
    }
  }

  /** Tick `n` moves on from a point the clock was set back to, behind the furthest one reached. */
  predicate MovesOnBehind(ticks: seq<Tick>, n: nat) {
    && n < |ticks| && ticks[n].ok && SweptUntil(ticks[..n]).Some? && SweptUntil(ticks[..n]).value < ticks[n].now
    && SweptUntil(ticks[..n]) != Furthest(ticks[..n])
  }

  predicate ResumesAtFurthest(ticks: seq<Tick>) {
    forall n :: 0 <= n < |ticks| ==> !MovesOnBehind(ticks, n)
  }

  lemma {:induction false} ResumingSweepsOnce(ticks: seq<Tick>, e: Time)
    requires ResumesAtFurthest(ticks)
    ensures TimesSwept(Windows(ticks), e) <= 1
    decreases |ticks|
  {
    if ticks != [] {
      var n := |ticks| - 1;
      forall i | 0 <= i < n ensures !MovesOnBehind(ticks[..n], i) {
        assert ticks[..n][..i] == ticks[..i] && !MovesOnBehind(ticks, i);
      }
      assert !MovesOnBehind(ticks, n);
      OneTickMore(ticks, e);
      ResumingSweepsOnce(ticks[..n], e);
      SweptIffReached(ticks[..n], e);
      FurthestIsAhead(ticks[..n]);
    }
  }

  lemma {:induction false} SweptStaysSwept(ticks: seq<Tick>, n: nat, e: Time)
    requires n <= |ticks|
    ensures TimesSwept(Windows(ticks[..n]), e) <= TimesSwept(Windows(ticks), e)
    decreases |ticks|
  {
    if n < |ticks| {
      assert ticks[..|ticks| - 1][..n] == ticks[..n];
      OneTickMore(ticks, e);
      SweptStaysSwept(ticks[..|ticks| - 1], n, e);
    } else {
      assert ticks[..n] == ticks;
    }
  }

  lemma MovingOnBehindSweepsTwice(ticks: seq<Tick>, n: nat) returns (e: Time)
    requires MovesOnBehind(ticks, n)
    ensures TimesSwept(Windows(ticks), e) >= 2
  {
    e := SweptUntil(ticks[..n]).value + 1;
    FurthestIsAhead(ticks[..n]);
    SweptIffReached(ticks[..n], e);
    assert ticks[..n + 1][..n] == ticks[..n];
    OneTickMore(ticks[..n + 1], e);
    SweptStaysSwept(ticks, n + 1, e);
  }

  /** No expiry is swept twice, if and only if no sweep moves on from behind the furthest point reached. */
  lemma SweptAtMostOnceIff(ticks: seq<Tick>)
    ensures (forall e :: TimesSwept(Windows(ticks), e) <= 1) <==> ResumesAtFurthest(ticks)
  {
    if ResumesAtFurthest(ticks) {
      forall e ensures TimesSwept(Windows(ticks), e) <= 1 {
        ResumingSweepsOnce(ticks, e);
      }
    } else {
      var n :| 0 <= n < |ticks| && MovesOnBehind(ticks, n);
      var e := MovingOnBehindSweepsTwice(ticks, n);
    }
  }

  /** A clock set back and run on sweeps twice: at 2, back at 1, and at 2 again. */
  lemma SetBackSweepsTwice()
    ensures TimesSwept(Windows([Tick(2, true), Tick(1, true), Tick(2, true)]), 2) == 2
  {
    var ticks := [Tick(2, true), Tick(1, true), Tick(2, true)];
    assert ticks[..2] == [Tick(2, true), Tick(1, true)] && ticks[..2][..1] == [Tick(2, true)];
    OneTickMore(ticks, 2);
    OneTickMore(ticks[..2], 2);
    OneTickMore([Tick(2, true)], 2);
  }

  // ----- Assignments -----

  type Table = map<nat, Assignment>

  /** The assignments a window takes from the table, and whose they are. */
  function Taken(table: Table, w: Window): set<nat> {
    set k | k in table && Expired(table[k], w)
  }

  function UsersIn(table: Table, w: Window): set<User> {
    set k | k in table && Expired(table[k], w) :: table[k].user
  }

  /** What a sweep that went through took: the assignments, and the users it had re-checked. */
  datatype Sweep = Sweep(taken: set<nat>, users: set<User>)

  /** The sweeps of the ticks that went through, each on the table as it was at the tick. */
  function Sweeps(tables: seq<Table>, ticks: seq<Tick>): seq<Sweep>
    requires |tables| == |ticks|
  {
    if ticks == [] then []
    else
      var n := |ticks| - 1;
      var before, w := Sweeps(tables[..n], ticks[..n]), Window(SweptUntil(ticks[..n]), ticks[n].now);
      if ticks[n].ok then before + [Sweep(Taken(tables[n], w), UsersIn(tables[n], w))] else before
  }

  function TimesTaken(sweeps: seq<Sweep>, k: nat): nat {
    if sweeps == [] then 0 else TimesTaken(sweeps[..|sweeps| - 1], k) + One(k in sweeps[|sweeps| - 1].taken)
  }

  /** The assignment is in the table throughout, unrevoked and with this expiry. */
  predicate Standing(tables: seq<Table>, k: nat, user: User, e: Time) {
    forall i :: 0 <= i < |tables| ==> k in tables[i] && tables[i][k] == Assignment(user, Some(e), false)
  }

  /** An assignment is taken once per window that covers its expiry, and its user is re-checked each time. */
  lemma {:induction false} TakenAsSwept(tables: seq<Table>, ticks: seq<Tick>, k: nat, user: User, e: Time)
    requires |tables| == |ticks| && Standing(tables, k, user, e)
    ensures TimesTaken(Sweeps(tables, ticks), k) == TimesSwept(Windows(ticks), e)
    ensures forall i :: 0 <= i < |Sweeps(tables, ticks)| && k in Sweeps(tables, ticks)[i].taken ==> user in Sweeps(tables, ticks)[i].users
    decreases |ticks|
  {
    if ticks != [] {
      var n := |ticks| - 1;
      OneTickMore(ticks, e);
      TakenAsSwept(tables[..n], ticks[..n], k, user, e);
      if ticks[n].ok {
        var sweeps := Sweeps(tables, ticks);
        assert sweeps[..|sweeps| - 1] == Sweeps(tables[..n], ticks[..n]);
        assert tables[n][k] == Assignment(user, Some(e), false);
      }
    }
  }

  /** With a monotone clock and any failures, a standing assignment is taken once when its expiry is reached, and not before. */
  lemma AssignmentTakenOnce(tables: seq<Table>, ticks: seq<Tick>, k: nat, user: User, e: Time)
    requires |tables| == |ticks| && Standing(tables, k, user, e) && ClockIsMonotone(ticks)
    ensures TimesTaken(Sweeps(tables, ticks), k) == One(SweptUntil(ticks).Some? && e <= SweptUntil(ticks).value)
  {
    TakenAsSwept(tables, ticks, k, user, e);
    SweptExactlyOnce(ticks, e);
  }

  /** An assignment in the window no longer grants anything when its user is re-checked. */
  lemma InactiveAtRecheck(a: Assignment, w: Window, later: Time)
    requires Expired(a, w) && w.now <= later
    ensures !ActiveAt(a, later)
  {}
}
