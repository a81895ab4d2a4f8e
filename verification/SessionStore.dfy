/**
 The session calls of one process as they are written, over the step machine of
 `Sessions`. `Interfere` stands for what everyone else does while this process waits;
 `ok := *` for a statement or a connection that may fail.
 */
module SessionStore {
  import opened Prelude
  import opened Sorted
  import opened Sessions
  import opened SessionTree

  /** Sessions closed per attempt in a retry, and example ids kept for the summary line. */
  const CHUNK := 100
  const EXAMPLES := 3

  datatype OpenOutcome = UserSessionEnded | InvalidTicket(ticket: TicketId) | Created(row: RowId) | AlreadyExists(row: RowId) | Failed

  /** A live connection's handle on this node. */
  datatype Handle = Handle(id: nat, session: SessionId)

  /** What a sweep of the retry queue reports. */
  datatype CloseRetry = CloseRetry(retried: nat, failedCount: nat, queued: nat, examples: seq<SessionId>)

  function Who(step: Step): Option<Actor> {
    match step
    case Delete(a, _, _) => Some(a)
    case Collect(a, _, _) => Some(a)
    case Take(a, _) => Some(a)
    case Start(a, _) => Some(a)
    case Revoke(a, _) => Some(a)
    case Finish(a) => Some(a)
    case Fail(a, _) => Some(a)
    case SelectOpen(a, _) => Some(a)
    case _ => None
  }

  /** A step of someone else; a process has one sweep, so nobody else empties its queue. */
  predicate Foreign(step: Step, me: Actor, home: Process) {
    Who(step) != Some(me) && !(step.Take? && step.at == home)
  }

  ghost predicate Others(a: State, b: State, me: Actor, home: Process) {
    exists steps :: Run(a, steps) && Exec(a, steps) == b && forall i :: 0 <= i < |steps| ==> Foreign(steps[i], me, home)
  }

  /** What holds of a later state whatever others did. */
  ghost predicate Later(a: Users, b: Users) {
    && a.Keys <= b.Keys
    && forall sid :: sid in a ==> (a[sid].ended ==> b[sid].ended) && b[sid].node == a[sid].node
  }

  predicate IsOver(users: Users, sid: SessionId) {
    sid in users && users[sid].ended
  }

  /** Ended, and no handle that was registered for it is left open. */
  predicate IsShut(users: Users, registered: set<Handle>, closed: set<Handle>, sid: SessionId) {
    IsOver(users, sid) && forall h :: h in registered && h.session == sid ==> h in closed
  }

  /** The failures are some of the ids, and the others are shut. */
  predicate Handled(users: Users, registered: set<Handle>, closed: set<Handle>, ids: seq<SessionId>, failures: seq<SessionId>) {
    && |failures| <= |ids| && Ids(failures) <= Ids(ids)
    && forall sid :: sid in ids && sid !in failures ==> IsShut(users, registered, closed, sid)
  }

  lemma HandledMore(users: Users, closed: set<Handle>, ids: seq<SessionId>, failures: seq<SessionId>,
                    users': Users, closed': set<Handle>, ids': seq<SessionId>, failures': seq<SessionId>, registered: set<Handle>)
    requires Handled(users, registered, closed, ids, failures) && Later(users, users') && closed <= closed'
    requires Handled(users', registered, closed', ids', failures')
    ensures Handled(users', registered, closed', ids + ids', failures + failures')
    ensures Ids(ids + ids') == Ids(ids) + Ids(ids') && Ids(failures + failures') == Ids(failures) + Ids(failures')
  {
    assert Ids(ids + ids') == Ids(ids) + Ids(ids');
    assert Ids(failures + failures') == Ids(failures) + Ids(failures');
    forall sid | sid in ids + ids' && sid !in failures + failures' ensures IsShut(users', registered, closed', sid) {
      if sid in ids {
        assert IsShut(users, registered, closed, sid);
      }
    }
  }

  lemma StepLater(s: State, step: Step)
    requires Enabled(s, step)
    ensures Later(s.users, Next(s, step).users)
  {
    UsersAdvance(s, step);
  }

  /** What was not read as open, and exists, had ended. */
  lemma NotReadMeansOver(s: State, me: Actor, batch: set<SessionId>)
    requires Known(s) && Enabled(s, Start(me, batch))
    ensures forall sid :: sid in batch - OpenAmong(s.users, batch) ==> IsOver(s.users, sid)
  {
    assert KnownLocal(s.users, At(s, me));
  }

  lemma LaterStill(a: Users, b: Users, c: Users)
    requires Later(a, b) && Later(b, c)
    ensures Later(a, c)
    ensures forall sid :: IsOver(b, sid) ==> IsOver(c, sid)
  {}

  lemma ForeignStep(s: State, step: Step, me: Actor, home: Process)
    requires Enabled(s, step) && Foreign(step, me, home)
    ensures At(Next(s, step), me) == At(s, me) && QueueAt(s, home) <= QueueAt(Next(s, step), home)
    ensures s.gone <= Next(s, step).gone
  {}

  lemma {:induction false} OthersLater(a: State, steps: seq<Step>, me: Actor, home: Process)
    requires Run(a, steps) && forall i :: 0 <= i < |steps| ==> Foreign(steps[i], me, home)
    ensures Later(a.users, Exec(a, steps).users) && At(Exec(a, steps), me) == At(a, me)
    ensures QueueAt(a, home) <= QueueAt(Exec(a, steps), home) && a.gone <= Exec(a, steps).gone
    decreases |steps|
  {
    if steps != [] {
      var b := Next(a, steps[0]);
      assert Foreign(steps[0], me, home);
      StepLater(a, steps[0]);
      ForeignStep(a, steps[0], me, home);
      OthersLater(b, steps[1..], me, home);
      LaterStill(a.users, b.users, Exec(b, steps[1..]).users);
    }
  }

  lemma {:induction false} RunThen(s: State, first: seq<Step>, rest: seq<Step>)
    requires Run(s, first) && Run(Exec(s, first), rest)
    ensures Run(s, first + rest) && Exec(s, first + rest) == Exec(Exec(s, first), rest)
    decreases |first|
  {
    if first == [] {
      assert first + rest == rest;
    } else {
      RunThen(Next(s, first[0]), first[1..], rest);
      assert (first + rest)[1..] == first[1..] + rest;
    }
  }

  class Services {
    var st: State
    const me: Actor
    const home: Process
    /** Handles registered on this node so far, and those closed or dropped. */
    var handles: set<Handle>
    var closed: set<Handle>
    /** The cluster's node rows. */
    var nodes: set<Node>
    ghost const origin: State
    ghost var trace: seq<Step>
    /** Since the queue was last taken: what others queued, and what this sweep gave back. */
    ghost var arrived: set<SessionId>
    ghost var returned: set<SessionId>
    /** The sessions this process itself has revoked. */
    ghost var revoked: set<SessionId>

    constructor (st: State, me: Actor, home: Process)
      requires Initial(st)
      ensures Valid() && this.st == st && this.me == me && this.home == home && handles == {} && closed == {}
    {
      this.st, this.me, this.home, handles, closed, nodes := st, me, home, {}, {}, {};
      origin, trace, arrived, returned, revoked := st, [], {}, {}, {};
    }

    /** Everything done so far, by this process and by others, is a run from empty tables. */
    ghost predicate Valid()
      reads this
    {
      && Initial(origin) && Run(origin, trace) && Exec(origin, trace) == st
      && QueueAt(st, home) == arrived + returned
    }

    lemma Invariant()
      requires Valid()
      ensures Inv(st)
    {
      RunInv(origin, trace);
    }

    method Interfere()
      modifies `st, `handles, `closed, `nodes
      ensures Others(old(st), st, me, home)
      ensures old(handles) <= handles && old(closed) <= closed
    {
      assert Run(st, []) && Exec(st, []) == st;
    }

    method Wait()
      requires Valid()
      modifies `st, `handles, `closed, `nodes, `trace, `arrived
      ensures old(st).gone <= st.gone
      ensures Valid() && Later(old(st).users, st.users) && At(st, me) == old(At(st, me))
      ensures old(handles) <= handles && old(closed) <= closed && old(arrived) <= arrived
    {
      Interfere();
      ghost var steps :| Run(old(st), steps) && Exec(old(st), steps) == st
                         && forall i :: 0 <= i < |steps| ==> Foreign(steps[i], me, home);
      OthersLater(old(st), steps, me, home);
      RunThen(origin, trace, steps);
      trace := trace + steps;
      arrived := arrived + (QueueAt(st, home) - returned);
    }

    /** A step of this process that leaves its queue alone. */
    method Do(step: Step)
      requires Valid() && Enabled(st, step) && QueueAt(Next(st, step), home) == QueueAt(st, home)
      modifies `st, `trace
      ensures Valid() && st == Next(old(st), step)
    {
      RunFrom(st, step, []);
      RunThen(origin, trace, [step]);
      trace := trace + [step];
      st := Next(st, step);
    }

    /** open_or_lookup: one transaction; `unexpired` is what the ticket's expiry says to the clock. */
    method OpenOrLookup(row: RowId, sid: SessionId, target: Target, admission: Option<TicketId>, unexpired: bool)
      returns (outcome: OpenOutcome)
      requires Valid() && row !in st.targets && row !in st.via
      modifies this
      ensures Valid()
      ensures !outcome.Failed? ==>
                && (outcome.UserSessionEnded? <==> !IsOpen(old(st).users, sid))
                && (outcome.InvalidTicket? <==> IsOpen(old(st).users, sid) && !Admits(old(st), admission, unexpired))
                && (outcome.AlreadyExists? <==> OpenAllowed(old(st), sid, admission, unexpired) && HasRow(old(st).targets, sid, target))
      ensures outcome.InvalidTicket? ==> admission == Some(outcome.ticket)
      ensures !outcome.Created? ==> st == old(st)
      ensures outcome.Created? ==>
                && outcome.row == row && st.users == old(st).users && st.tickets == old(st).tickets
                && st.targets == old(st).targets[row := TargetSession(sid, target, false, admission)]
      ensures outcome.AlreadyExists? ==>
                && outcome.row in st.targets && !st.targets[outcome.row].ended
                && st.targets[outcome.row].parent == sid && st.targets[outcome.row].target == target
    {
      var ok := *;
      if !ok {
        return OpenOutcome.Failed;
      }
      Invariant();
      var ended, allowed := !IsOpen(st.users, sid), OpenAllowed(st, sid, admission, unexpired);
      Do(Open(row, sid, target, admission, unexpired));
      if !allowed {
        return if ended then UserSessionEnded else InvalidTicket(admission.value);
      }
      assert HasRow(old(st).targets, sid, target) || (row in st.targets && st.targets[row].parent == sid && st.targets[row].target == target);
      var found :| found in st.targets && st.targets[found].parent == sid && st.targets[found].target == target;
      return if found == row then Created(row) else AlreadyExists(found);
    }

    /** One session's transaction. */
    method RevokeOne(sid: SessionId)
      requires Valid() && (At(st, me).Closing? || At(st, me).Reaping?) && sid in At(st, me).todo
      modifies `st, `handles, `closed, `nodes, `trace, `arrived, `revoked
      ensures revoked == old(revoked) + {sid}
      ensures old(st).gone <= st.gone
      ensures Valid() && Later(old(st).users, st.users) && IsOver(st.users, sid)
      ensures At(st, me) == old(At(st, me)).(todo := old(At(st, me).todo) - {sid})
      ensures old(handles) <= handles && old(closed) <= closed && old(arrived) <= arrived
    {
      Invariant();
      assert KnownLocal(st.users, At(st, me));
      StepLater(st, Revoke(me, sid));
      Do(Revoke(me, sid));
      revoked := revoked + {sid};
      Wait();
    }

    /** Revokes what was read as open, one at a time, until one fails. */
    method RevokeEach() returns (ok: bool)
      requires Valid() && (At(st, me).Closing? || At(st, me).Reaping?)
      modifies `st, `handles, `closed, `nodes, `trace, `arrived, `revoked
      ensures old(st).gone <= st.gone
      ensures Valid() && Later(old(st).users, st.users)
      ensures At(st, me).Closing? || At(st, me).Reaping?
      ensures At(st, me) == old(At(st, me)).(todo := At(st, me).todo)
      ensures At(st, me).todo <= old(At(st, me).todo) && (ok ==> At(st, me).todo == {})
      ensures revoked == old(revoked) + (old(At(st, me).todo) - At(st, me).todo)
      ensures forall sid :: sid in old(At(st, me).todo) - At(st, me).todo ==> IsOver(st.users, sid)
      ensures old(handles) <= handles && old(closed) <= closed && old(arrived) <= arrived
    {
      var todo := At(st, me).todo;
      while todo != {}
        invariant Valid() && old(st).gone <= st.gone
        invariant Later(old(st).users, st.users)
        invariant At(st, me).Closing? || At(st, me).Reaping?
        invariant old(At(st, me)).(todo := todo) == At(st, me) && todo <= old(At(st, me).todo)
        invariant forall sid :: sid in old(At(st, me).todo) - todo ==> IsOver(st.users, sid)
        invariant revoked == old(revoked) + (old(At(st, me).todo) - todo)
        invariant old(handles) <= handles && old(closed) <= closed && old(arrived) <= arrived
        decreases |todo|
      {
        ok := *;
        if !ok {
          return;
        }
        ghost var before := st.users;
        var sid :| sid in todo;
        RevokeOne(sid);
        LaterStill(old(st).users, before, st.users);
        todo := todo - {sid};
      }
      ok := true;
    }

    /** revoke_open_matching, for a filter that selects `ids`: nobody else is revoked. */
    method RevokeOpenMatching(ids: set<SessionId>) returns (ok: bool)
      requires Valid() && Free(At(st, me))
      modifies `st, `handles, `closed, `nodes, `trace, `arrived, `revoked
      ensures Valid() && Later(old(st).users, st.users) && Free(At(st, me))
      ensures ok ==> forall sid :: sid in ids && IsOpen(old(st).users, sid) ==> IsOver(st.users, sid)
      ensures revoked <= old(revoked) + OpenAmong(old(st).users, ids)
    {
      ok := *;
      if !ok {
        return;
      }
      Do(SelectOpen(me, ids));
      ok := RevokeEach();
      StepLater(st, Fail(me, false));
      Do(Fail(me, false));
    }

    /** close_sessions for a list of ids, by a caller that answers for nothing else. */
    method CloseIds(ids: set<SessionId>) returns (ok: bool)
      requires Valid() && Free(At(st, me))
      modifies `st, `handles, `closed, `nodes, `trace, `arrived, `revoked
      ensures Valid() && Later(old(st).users, st.users) && Free(At(st, me))
      ensures ok ==> && (forall sid :: sid in ids && sid in old(st).users ==> IsOver(st.users, sid))
                     && forall h :: h in handles && h.session in ids ==> h in closed
      ensures revoked <= old(revoked) + OpenAmong(old(st).users, ids)
    {
      ok := RevokeOpenMatching(ids);
      if ok {
        closed := closed + set h | h in handles && h.session in ids;
      }
    }

    /** close_sessions: the rows, then this node's handles. A failure leaves the attempt open for its caller. */
    method CloseSessions(batch: set<SessionId>) returns (ok: bool)
      requires Valid() && At(st, me).Holding? && batch <= At(st, me).held && (!At(st, me).sweeping ==> batch == At(st, me).held)
      modifies `st, `handles, `closed, `nodes, `trace, `arrived, `revoked
      ensures old(st).gone <= st.gone
      ensures Valid() && Later(old(st).users, st.users)
      ensures ok ==> && At(st, me) == old(var l := At(st, me); Holding(l.home, l.sweeping, l.held - batch))
                     && (forall sid :: sid in batch ==> IsOver(st.users, sid))
                     && forall h :: h in handles && h.session in batch ==> h in closed
      ensures !ok ==> && At(st, me).Closing? && At(st, me).batch == batch && At(st, me).held == old(At(st, me).held)
                      && At(st, me).home == old(At(st, me).home) && At(st, me).sweeping == old(At(st, me).sweeping)
      ensures old(handles) <= handles && old(closed) <= closed && old(arrived) <= arrived
    {
      assert Known(st) by {
        Invariant();
      }
      NotReadMeansOver(st, me, batch);
      Do(Start(me, batch));
      ok := RevokeEach();
      LaterStill(old(st).users, old(st).users, st.users);
      if ok {
        closed := closed + set h | h in handles && h.session in batch;
        Do(Finish(me));
      }
    }

    /** What could not be closed waits for the next sweep. */
    method PushCloses()
      requires Valid() && At(st, me).Closing? && At(st, me).home == home
      requires At(st, me).sweeping ==> |At(st, me).batch| == 1
      modifies `st, `trace, `returned
      ensures Valid() && st.users == old(st).users && st.gone == old(st).gone && returned == old(returned) + old(At(st, me).batch)
      ensures At(st, me) == old(var l := At(st, me); Holding(l.home, l.sweeping, l.held - l.batch))
    {
      RunFrom(st, Fail(me, true), []);
      RunThen(origin, trace, [Fail(me, true)]);
      trace := trace + [Fail(me, true)];
      returned := returned + At(st, me).batch;
      st := Next(st, Fail(me, true));
    }

    /** take_closes. */
    method TakeCloses() returns (ids: seq<SessionId>)
      requires Valid() && Free(At(st, me))
      modifies `st, `trace, `arrived, `returned
      ensures Valid() && st.users == old(st).users && arrived == returned == {}
      ensures Ids(ids) == old(QueueAt(st, home)) && |ids| == |old(QueueAt(st, home))| && Ascending(ids)
      ensures At(st, me) == Holding(home, true, Ids(ids))
    {
      ids := Drained(QueueAt(st, home));
      RunFrom(st, Take(me, home), []);
      RunThen(origin, trace, [Take(me, home)]);
      trace := trace + [Take(me, home)];
      arrived, returned := {}, {};
      st := Next(st, Take(me, home));
    }

    /** One id; if it fails again it goes back to the queue. */
    method RetryOne(sid: SessionId, ghost registered: set<Handle>) returns (failures: seq<SessionId>)
      requires Valid() && At(st, me).Holding? && At(st, me).home == home && At(st, me).sweeping && sid in At(st, me).held
      requires registered <= handles
      modifies `st, `handles, `closed, `nodes, `trace, `arrived, `returned, `revoked
      ensures Valid() && Later(old(st).users, st.users) && old(closed) <= closed && old(handles) <= handles
      ensures At(st, me) == Holding(home, true, old(At(st, me).held) - {sid})
      ensures Handled(st.users, registered, closed, [sid], failures) && returned == old(returned) + Ids(failures)
    {
      var ok := CloseSessions({sid});
      if ok {
        return [];
      }
      PushCloses();
      return [sid];
    }

    /** The ids of a chunk that failed, one by one. */
    method RetrySingly(chunk: seq<SessionId>, ghost registered: set<Handle>) returns (failures: seq<SessionId>)
      requires Valid() && At(st, me).Holding? && At(st, me).home == home && At(st, me).sweeping
      requires Ids(chunk) <= At(st, me).held && Ascending(chunk) && registered <= handles
      modifies `st, `handles, `closed, `nodes, `trace, `arrived, `returned, `revoked
      ensures Valid() && Later(old(st).users, st.users) && old(closed) <= closed && old(handles) <= handles
      ensures At(st, me) == Holding(home, true, old(At(st, me).held) - Ids(chunk))
      ensures Handled(st.users, registered, closed, chunk, failures) && returned == old(returned) + Ids(failures)
    {
      failures := [];
      for i := 0 to |chunk|
        invariant Valid() && Later(old(st).users, st.users) && old(closed) <= closed && old(handles) <= handles
        invariant At(st, me) == Holding(home, true, old(At(st, me).held) - Ids(chunk[..i]))
        invariant Handled(st.users, registered, closed, chunk[..i], failures) && returned == old(returned) + Ids(failures)
      {
        ghost var users, shut := st.users, closed;
        OneMore(chunk, i);
        var more := RetryOne(chunk[i], registered);
        LaterStill(old(st).users, users, st.users);
        HandledMore(users, shut, chunk[..i], failures, st.users, closed, [chunk[i]], more, registered);
        failures := failures + more;
      }
      assert chunk[..|chunk|] == chunk;
    }

    /** One chunk: whole, and if that fails, id by id. */
    method RetryChunk(chunk: seq<SessionId>, ghost registered: set<Handle>) returns (failures: seq<SessionId>)
      requires Valid() && At(st, me).Holding? && At(st, me).home == home && At(st, me).sweeping
      requires Ids(chunk) <= At(st, me).held && Ascending(chunk) && registered <= handles
      modifies `st, `handles, `closed, `nodes, `trace, `arrived, `returned, `revoked
      ensures Valid() && Later(old(st).users, st.users) && old(closed) <= closed && old(handles) <= handles
      ensures At(st, me) == Holding(home, true, old(At(st, me).held) - Ids(chunk))
      ensures Handled(st.users, registered, closed, chunk, failures) && returned == old(returned) + Ids(failures)
    {
      var ok := CloseSessions(Ids(chunk));
      if ok {
        return [];
      }
      Do(Fail(me, false));
      ghost var users := st.users;
      failures := RetrySingly(chunk, registered);
      LaterStill(old(st).users, users, st.users);
    }

    /** The queue's ids, chunk by chunk. */
    method RetryChunks(ids: seq<SessionId>, ghost registered: set<Handle>) returns (failures: seq<SessionId>)
      requires Valid() && At(st, me) == Holding(home, true, Ids(ids)) && Ascending(ids) && registered <= handles
      modifies `st, `handles, `closed, `nodes, `trace, `arrived, `returned, `revoked
      ensures Valid() && At(st, me) == Holding(home, true, {})
      ensures Handled(st.users, registered, closed, ids, failures) && returned == old(returned) + Ids(failures)
    {
      failures := [];
      var i := 0;
      while i < |ids|
        invariant i <= |ids| && Valid() && registered <= handles
        invariant At(st, me) == Holding(home, true, Ids(ids[i..]))
        invariant Handled(st.users, registered, closed, ids[..i], failures) && returned == old(returned) + Ids(failures)
      {
        var n := if |ids| - i < CHUNK then i + (|ids| - i) else i + CHUNK;
        ghost var users, shut := st.users, closed;
        Taking(ids, i, n);
        var more := RetryChunk(ids[i..n], registered);
        HandledMore(users, shut, ids[..i], failures, st.users, closed, ids[i..n], more, registered);
        failures := failures + more;
        i := n;
      }
      assert ids[..|ids|] == ids;
    }

    /**
     retry_pending_closes. Each id taken is shut or back in the queue, which then holds
     what this sweep gave back and what arrived meanwhile.
     */
    method RetryPendingCloses() returns (outcome: CloseRetry, ghost failures: seq<SessionId>)
      requires Valid() && Free(At(st, me))
      modifies `st, `handles, `closed, `nodes, `trace, `arrived, `returned, `revoked
      ensures Valid() && Free(At(st, me))
      ensures forall sid :: sid in old(QueueAt(st, home)) && sid !in failures ==> IsShut(st.users, old(handles), closed, sid)
      ensures Ids(failures) <= old(QueueAt(st, home)) && QueueAt(st, home) == arrived + Ids(failures)
      ensures outcome.retried == |old(QueueAt(st, home))| && outcome.failedCount == |failures| <= outcome.retried
      ensures outcome.queued == |QueueAt(st, home)|
      ensures outcome.examples == failures[..if |failures| < EXAMPLES then |failures| else EXAMPLES]
    {
      var ids := TakeCloses();
      var failed := RetryChunks(ids, handles);
      failures := failed;
      var kept := if |failed| < EXAMPLES then |failed| else EXAMPLES;
      outcome := CloseRetry(|ids|, |failed|, |QueueAt(st, home)|, failed[..kept]);
    }

    /** close_admitted_sessions: a close that fails is queued, never reported. */
    method CloseAdmitted()
      requires Valid() && At(st, me).Holding? && !At(st, me).sweeping && At(st, me).home == home
      modifies `st, `handles, `closed, `nodes, `trace, `arrived, `returned, `revoked
      ensures old(st).gone <= st.gone
      ensures Valid() && Later(old(st).users, st.users) && At(st, me) == Holding(home, false, {})
      ensures || (forall sid :: sid in old(At(st, me).held) ==> IsShut(st.users, old(handles), closed, sid))
              || old(At(st, me).held) <= QueueAt(st, home)
    {
      if At(st, me).held == {} {
        return;
      }
      var ok := CloseSessions(At(st, me).held);
      if !ok {
        PushCloses();
      }
    }

    /** delete_ticket_closing_sessions: whoever the ticket admitted has been shut, or is queued. */
    method DeleteTicketClosingSessions(ticket: TicketId) returns (ok: bool)
      requires Valid() && Free(At(st, me))
      modifies `st, `handles, `closed, `nodes, `trace, `arrived, `returned, `revoked
      ensures Valid() && Free(At(st, me))
      ensures if ok then ticket in old(st).tickets ==> ticket in st.gone else st == old(st)
      ensures ok ==> || (forall sid :: sid in Admitted(old(st).targets, {ticket} * old(st).tickets) ==>
                           IsShut(st.users, old(handles), closed, sid))
                     || Admitted(old(st).targets, {ticket} * old(st).tickets) <= QueueAt(st, home)
    {
      ok := *;
      if ok {
        Do(Delete(me, home, {ticket}));
        CloseAdmitted();
      }
    }

    /** The sessions bound to one of the nodes. */
    function BoundTo(nodes: set<Node>): set<SessionId>
      reads this
    {
      set sid | sid in st.users && st.users[sid].node.Some? && st.users[sid].node.value in nodes
    }

    function BoundElsewhere(nodes: set<Node>): set<SessionId>
      reads this
    {
      set sid | sid in st.users && st.users[sid].node.Some? && st.users[sid].node.value !in nodes
    }

    /** Whoever is bound to a node not listed; nobody, if none is listed. */
    method ReapBound(listed: set<Node>) returns (ok: bool)
      requires Valid() && Free(At(st, me))
      modifies `st, `handles, `closed, `nodes, `trace, `arrived, `revoked
      ensures Valid() && Free(At(st, me)) && Later(old(st).users, st.users)
      ensures ok && listed != {} ==>
                forall sid :: sid in old(BoundElsewhere(listed)) && IsOpen(old(st).users, sid) ==> IsOver(st.users, sid)
      ensures revoked <= old(revoked) + (if listed == {} then {} else old(BoundElsewhere(listed)))
    {
      if listed == {} {
        return true;
      }
      ok := RevokeOpenMatching(BoundElsewhere(listed));
    }

    /**
     reap: delete the stale nodes, list the others, and end what is bound to a node not
     listed and the unowned sessions found without a cookie. The pass revokes nobody bound
     to a listed node, and nobody bound at all if none is listed.
     */
    method Reap(stale: set<Node>, unbacked: set<SessionId>) returns (ok: bool, listed: set<Node>)
      requires Valid() && Free(At(st, me))
      modifies `st, `handles, `closed, `nodes, `trace, `arrived, `revoked
      ensures Valid() && Free(At(st, me)) && Later(old(st).users, st.users)
      ensures ok && listed != {} ==>
                forall sid :: sid in old(BoundElsewhere(listed)) && IsOpen(old(st).users, sid) ==> IsOver(st.users, sid)
      ensures ok ==> forall sid :: sid in unbacked && IsOpen(old(st).users, sid) ==> IsOver(st.users, sid)
      ensures revoked <= old(revoked) + unbacked + (if listed == {} then {} else BoundElsewhere(listed))
    {
      listed := {};
      ok := *;
      if !ok {
        return;
      }
      nodes := nodes - stale;
      Wait();
      ok := *;
      if !ok {
        return;
      }
      listed := nodes;
      ghost var read := st.users;
      ok := ReapBound(listed);
      LaterStill(old(st).users, read, st.users);
      if !ok {
        return;
      }
      ghost var users := st.users;
      ok := RevokeOpenMatching(unbacked);
      LaterStill(read, users, st.users);
      LaterStill(old(st).users, users, st.users);
      if ok {
        ok := SweepChildren();
      }
    }

    /** end_children_of_ended_parents: in every reachable state, nothing. */
    method SweepChildren() returns (ok: bool)
      requires Valid()
      modifies `st, `trace
      ensures Valid() && st == old(st)
    {
      ok := *;
      if ok {
        EndChildrenFindsNothing(origin, trace);
        Do(EndChildren);
      }
    }

    /** shutdown: this node's sessions end, and only they do; then its row goes. */
    method Shutdown(node: Node) returns (ok: bool)
      requires Valid() && Free(At(st, me))
      modifies `st, `handles, `closed, `nodes, `trace, `arrived, `revoked
      ensures Valid() && Free(At(st, me)) && Later(old(st).users, st.users)
      ensures ok ==> forall sid :: sid in old(BoundTo({node})) && IsOpen(old(st).users, sid) ==> IsOver(st.users, sid)
      ensures ok ==> node !in nodes
      ensures revoked <= old(revoked) + old(BoundTo({node}))
    {
      ok := RevokeOpenMatching(BoundTo({node}));
      if ok {
        ok := SweepChildren();
      }
      if ok {
        ok := *;
        if ok {
          nodes := nodes - {node};
        }
      }
    }
  }
}
