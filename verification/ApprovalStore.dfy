/**
 The approval calls as they are written: a statement, a look at what it reported,
 the next statement. `Interfere` stands for whatever other callers do while this
 one waits for the database; `ok := *` for a statement that may fail.

 The calls are checked against the step machine of `Approvals`: every statement
 they issue is the step that machine has at that point, so what is proved of all
 its runs holds of these calls under any interleaving.
 */
module ApprovalStore {
  import opened Prelude
  import opened Approvals
  import opened ApprovalOutcomes
  import opened ApprovalLedger

  datatype Result<T> = Ok(value: T) | Err

  datatype Advertised = Asked | AlreadyAdvertised | TicketExhausted

  datatype Reopened = Reopened | NotUnanswered | Exhausted

  /** What a statement reports: whether it ran, found or changed a row, and the ticket row it read. */
  datatype Report = Report(ok: bool, hit: bool, ticket: Option<Option<int>>)

  /** Whether an upsert's statement finds or changes a row. */
  predicate Hit(s: State, l: Local)
    requires l.Asking?
  {
    match l.at
    case Refreshing | RefreshingExhausted => PendingAt(s, l.key)
    case Probing | Reopening => UnansweredAt(s, l.key)
    case Spending => TicketFor(s, l.key).Some? && CanSpend(s, s.ticketOf[l.key])
    case Inserting => l.key !in s.rows
    case _ => false
  }

  /** The key's ticket as SELECT finds it: gone, or its `uses_left`. */
  function Found(s: State, k: Key): Option<Option<int>> {
    if k in s.ticketOf && s.ticketOf[k] in s.uses then Some(s.uses[s.ticketOf[k]]) else None
  }

  predicate Asks(l: Local, r: Report)
    requires l.Asking?
  {
    r.ok && r.hit && (l.at.Reopening? || l.at.Inserting?)
  }

  function AfterReopen(r: Result<Reopened>, l: Local): Local
    requires l.Asking?
  {
    match r
    case Ok(NotUnanswered) => AfterNothingToReopen(l)
    case Ok(Exhausted) => AfterExhaustion(l)
    case _ => Idle
  }

  /** Where a call goes next depends on the tables only through what the statement reported. */
  lemma ReportDecides(s: State, s': State, l: Local, ok: bool)
    requires l.Asking? && s'.ticketOf == s.ticketOf && Hit(s', l) == Hit(s, l) && Found(s', l.key) == Found(s, l.key)
    ensures UpsertNext(s', l, ok) == UpsertNext(s, l, ok)
  {}

  function Listed(ask: Option<Ask>): seq<Ask> {
    match ask case Some(a) => [a] case None => []
  }

  /** The caller's asks grew by one, of this key. */
  predicate IsNewest(before: seq<Ask>, after: seq<Ask>, k: Key) {
    |after| == |before| + 1 && before <= after && after[|before|].key == k
  }

  ghost predicate Others(s: State, s': State, me: Actor) {
    exists steps :: Run(s, steps) && Exec(s, steps) == s' && forall i :: 0 <= i < |steps| ==> me !in Actors(steps[i])
  }

  /** Tickets stay with their keys, logins are not forgotten, and outcomes stand. */
  ghost predicate Later(s: State, s': State) {
    && s'.ticketOf == s.ticketOf && (forall k :: MayAsk(s, k) ==> MayAsk(s', k))
    && forall ask :: ask in s.log.outcome ==> ask in s'.log.outcome
  }

  lemma LaterStill(s: State, s': State, s'': State)
    requires Later(s, s') && Later(s', s'')
    ensures Later(s, s'')
  {}

  lemma OverStays(s: State, s': State, read: seq<Snapshot>)
    requires Later(s, s') && AllOver(s.log, read)
    ensures AllOver(s'.log, read)
  {}

  lemma LoginsStay(s: State, step: Step)
    requires Enabled(s, step)
    ensures Next(s, step).ticketOf == s.ticketOf && s.books.paid <= Next(s, step).books.paid
    ensures forall t :: Bounded(Next(s, step), t) ==> Bounded(s, t)
  {
    if step.Upsert? {
      UpsertCredit(s, At(s, step.a), step.ok);
      UpsertUses(s, At(s, step.a), step.ok);
    } else if !step.LoginSpend? {
      OtherwisePaid(s, step);
    }
  }

  lemma UpsertUses(s: State, l: Local, ok: bool)
    requires l.Asking?
    ensures forall t :: Bounded(UpsertEffect(s, l, ok), t) ==> Bounded(s, t)
  {
    if WritesRow(s, l, ok) {
      assert UpsertEffect(s, l, ok).uses == s.uses;
    } else {
      UpsertOtherwisePaid(s, l, ok);
    }
  }

  lemma StepLater(s: State, step: Step)
    requires Enabled(s, step)
    ensures Later(s, Next(s, step))
  {
    LoginsStay(s, step);
    LogWrites(s, step);
  }

  lemma {:induction false} OthersLater(s: State, steps: seq<Step>, me: Actor)
    requires Run(s, steps) && forall i :: 0 <= i < |steps| ==> me !in Actors(steps[i])
    ensures Later(s, Exec(s, steps)) && At(Exec(s, steps), me) == At(s, me)
    decreases |steps|
  {
    if steps != [] {
      assert me !in Actors(steps[0]);
      StepLater(s, steps[0]);
      OthersStay(s, steps[0], me);
      OthersLater(Next(s, steps[0]), steps[1..], me);
    }
  }

  /** The question that was read has an outcome, by this settle or before it. */
  lemma SettledOrOver(s: State, a: Actor)
    requires Shape(s) && Enabled(s, Settle(a, true))
    ensures var snap := At(s, a).todo[0]; Ask(snap.key, snap.number) in Next(s, Settle(a, true)).log.outcome
  {
    var l := At(s, a);
    var snap := l.todo[0];
    assert LocalOk(s.ticketOf, s.log, l) && SnapshotOk(s.ticketOf, s.log, snap);
    if snap.key in s.rows {
      assert RowOk(s.ticketOf, s.log, snap.key, s.rows[snap.key]);
      assert snap.number < s.log.Latest(snap.key).number || Ask(snap.key, snap.number) == s.log.Latest(snap.key);
    }
    LogWrites(s, Settle(a, true));
  }

  /** What the guarded UPDATE leads to. */
  lemma SettleLeadsTo(s: State, me: Actor, ok: bool)
    requires Enabled(s, Settle(me, ok))
    ensures var l := At(s, me);
            var snap, rest, won := l.todo[0], l.todo[1..], ok && Wins(s, l.todo[0]);
            && At(Next(s, Settle(me, ok)), me) == (if !ok then Idle
                                                   else if won && snap.ticket.Some? && l.to != Approved then Repaying(snap.ticket.value, rest, l.to, l.scope)
                                                   else Onward(rest, l.to, l.scope))
            && AskSettled(s, Settle(me, ok)) == (if won then Some(s.log.Latest(snap.key)) else None)
            && AskMade(s, Settle(me, ok)) == None
  {}

  predicate AllOver(log: Log, read: seq<Snapshot>) {
    forall i :: 0 <= i < |read| ==> Ask(read[i].key, read[i].number) in log.outcome
  }

  class Table {
    var st: State
    ghost const origin: State
    ghost var trace: seq<Step>
    /** The asks each caller's own statements made, in order. */
    ghost var made: map<Actor, seq<Ask>>
    /** The asks each caller's own statements settled, in order. */
    ghost var ended: map<Actor, seq<Ask>>

    /** The table got where it is, from empty, by the statements in `trace`. */
    ghost predicate Valid()
      reads this
    {
      Initial(origin) && Run(origin, trace) && st == Exec(origin, trace)
    }

    ghost function Made(a: Actor): seq<Ask>
      reads this
    {
      if a in made then made[a] else []
    }

    ghost function Ended(a: Actor): seq<Ask>
      reads this
    {
      if a in ended then ended[a] else []
    }

    constructor (start: State)
      requires Initial(start)
      ensures Valid() && st == start && made == map[] && ended == map[]
    {
      st, origin, trace, made, ended := start, start, [], map[], map[];
    }

    lemma InShape()
      requires Valid()
      ensures Shape(st)
    {
      InitiallySound(origin);
      RunShape(origin, trace);
    }

    /** One statement of `me`, atomically. */
    method Do(me: Actor, step: Step)
      requires Valid() && Enabled(st, step) && Orderly(st, step)
      modifies `st, `trace, `made, `ended
      ensures Valid() && st == Next(old(st), step) && Later(old(st), st)
      ensures Made(me) == old(Made(me)) + Listed(AskMade(old(st), step))
      ensures Ended(me) == old(Ended(me)) + Listed(AskSettled(old(st), step))
    {
      StepLater(st, step);
      RunFrom(st, step, []);
      RunThen(origin, trace, [step]);
      made := made[me := Made(me) + Listed(AskMade(st, step))];
      ended := ended[me := Ended(me) + Listed(AskSettled(st, step))];
      st := Next(st, step);
      trace := trace + [step];
    }

    /** While `me` waits, other callers run any number of their own statements. */
    method Interfere(me: Actor)
      modifies `st
      ensures Others(old(st), st, me)
    {
      assert Run(st, []) && Exec(st, []) == st;
    }

    method Wait(me: Actor)
      requires Valid()
      modifies `st, `trace
      ensures Valid() && Later(old(st), st) && At(st, me) == old(At(st, me))
    {
      Interfere(me);
      ghost var steps :| Run(old(st), steps) && Exec(old(st), steps) == st && forall i :: 0 <= i < |steps| ==> me !in Actors(steps[i]);
      OthersLater(old(st), steps, me);
      RunThen(origin, trace, steps);
      trace := trace + steps;
    }

    /** The next statement of the upsert `me` is running, after a wait; it may fail. It ran on the tables as in `at`. */
    method Statement(me: Actor) returns (r: Report, ghost at: State)
      requires Valid() && At(st, me).Asking? && MayAsk(st, At(st, me).key)
      modifies `st, `trace, `made, `ended
      ensures Valid() && Later(old(st), st) && at.ticketOf == st.ticketOf
      ensures r.hit == Hit(at, old(At(st, me))) && r.ticket == Found(at, old(At(st, me)).key)
      ensures st.uses == UpsertEffect(at, old(At(st, me)), r.ok).uses && At(st, me) == UpsertNext(at, old(At(st, me)), r.ok)
      ensures if Asks(old(At(st, me)), r) then IsNewest(old(Made(me)), Made(me), old(At(st, me)).key) else Made(me) == old(Made(me))
    {
      Wait(me);
      var l := At(st, me);
      var ok := *;
      at := st;
      r := Report(ok, Hit(st, l), Found(st, l.key));
      Do(me, Upsert(me, ok));
    }

    /** The guarded decrement: one use less exactly when there was one. */
    method DecrementUse(me: Actor, l: Local) returns (r: Result<bool>, ghost at: State)
      requires Valid() && l.Asking? && At(st, me) == l.(at := Spending) && MayAsk(st, l.key) && l.key in st.ticketOf
      modifies `st, `trace, `made, `ended
      ensures Valid() && Later(old(st), st) && Made(me) == old(Made(me))
      ensures At(st, me) == match r case Err => Idle case Ok(spent) => if spent then l.(at := Reopening) else AfterExhaustion(l)
      ensures r.Ok? ==> r.value == CanSpend(at, st.ticketOf[l.key])
      ensures st.uses == if r == Ok(true) then Spent(at, st.ticketOf[l.key]).uses else at.uses
    {
      var spend;
      spend, at := Statement(me);
      return if spend.ok then Ok(spend.hit) else Err, at;
    }

    /** Ticket::spend_use: one use less, or none to spend, or an unlimited ticket that is not counted. */
    method SpendUse(me: Actor, l: Local) returns (r: Result<bool>, ghost at: State)
      requires Valid() && l.Asking? && At(st, me) == l.(at := Finding) && MayAsk(st, l.key) && l.key in st.ticketOf
      modifies `st, `trace, `made, `ended
      ensures Valid() && Later(old(st), st) && Made(me) == old(Made(me))
      ensures At(st, me) == match r case Err => Idle case Ok(spent) => if spent then l.(at := Reopening) else AfterExhaustion(l)
      ensures var t := st.ticketOf[l.key];
              match r
              case Ok(true) => t in at.uses && if Bounded(at, t) then CanSpend(at, t) && st.uses == Spent(at, t).uses else st.uses == at.uses
              case Ok(false) => !CanSpend(at, t) && st.uses == at.uses
              case Err => st.uses == at.uses
    {
      var find;
      find, at := Statement(me);
      if !find.ok { return Err, at; }
      if find.ticket.None? { return Ok(false), at; }
      if find.ticket.value.None? { return Ok(true), at; }
      r, at := DecrementUse(me, l);
    }

    /** The use of a reopen that lost is given back; a refund that fails is only logged. */
    method ReturnUse(me: Actor, l: Local, failed: bool)
      requires Valid() && l.Asking? && At(st, me) == l.(at := Returning(failed)) && MayAsk(st, l.key)
      modifies `st, `trace, `made, `ended
      ensures Valid() && Later(old(st), st) && Made(me) == old(Made(me))
      ensures At(st, me) == if failed then Idle else AfterNothingToReopen(l)
    {
      ghost var at;
      var refund;
      refund, at := Statement(me);
    }

    /** The guarded reopen, giving back what was spent on one that lost. */
    method ReopenOrReturn(me: Actor, l: Local) returns (r: Result<Reopened>)
      requires Valid() && l.Asking? && At(st, me) == l.(at := Reopening) && MayAsk(st, l.key)
      modifies `st, `trace, `made, `ended
      ensures Valid() && Later(old(st), st)
      ensures r != Ok(Exhausted) && At(st, me) == AfterReopen(r, l)
      ensures if r == Ok(Reopened.Reopened) then IsNewest(old(Made(me)), Made(me), l.key) else Made(me) == old(Made(me))
    {
      ghost var at;
      var reopen;
      reopen, at := Statement(me);
      r := if !reopen.ok then Err else if reopen.hit then Ok(Reopened.Reopened) else Ok(NotUnanswered);
      if r != Ok(Reopened.Reopened) && l.key in st.ticketOf {
        ReturnUse(me, l, r.Err?);
      }
    }

    /** Reopen a matching old request, spending the ticket again. */
    method TryReopenUnanswered(me: Actor, l: Local) returns (r: Result<Reopened>)
      requires Valid() && l.Asking? && At(st, me) == l.(at := if l.key in st.ticketOf then Probing else Reopening) && MayAsk(st, l.key)
      modifies `st, `trace, `made, `ended
      ensures Valid() && Later(old(st), st)
      ensures At(st, me) == AfterReopen(r, l)
      ensures if r == Ok(Reopened.Reopened) then IsNewest(old(Made(me)), Made(me), l.key) else Made(me) == old(Made(me))
    {
      if l.key in st.ticketOf {
        ghost var at;
        var probe;
        probe, at := Statement(me);
        if !probe.ok { return Err; }
        if !probe.hit { return Ok(NotUnanswered); }
        var spent;
        spent, at := SpendUse(me, l);
        match spent {
          case Err => return Err;
          case Ok(enough) => if !enough { return Ok(Exhausted); }
        }
      }
      r := ReopenOrReturn(me, l);
    }

    /** Create or re-advertise a request: `Asked` exactly when this very call asked. */
    method UpsertRequest(me: Actor, k: Key, started: Time) returns (r: Result<Advertised>)
      requires Valid() && At(st, me).Idle? && MayAsk(st, k)
      modifies `st, `trace, `made, `ended
      ensures Valid() && Later(old(st), st) && At(st, me).Idle?
      ensures if r == Ok(Advertised.Asked) then IsNewest(old(Made(me)), Made(me), k) else Made(me) == old(Made(me))
    {
      var l := Asking(k, started, Refreshing, false);
      Do(me, Begin(me, k, started));
      ghost var at;
      var refresh;
      refresh, at := Statement(me);
      if !refresh.ok { return Err; }
      if refresh.hit { return Ok(AlreadyAdvertised); }
      r := ReopenOrInsert(me, l);
    }

    /** Without a pending row: reopen, or insert. */
    method ReopenOrInsert(me: Actor, l: Local) returns (r: Result<Advertised>)
      requires Valid() && l.Asking? && !l.second && MayAsk(st, l.key)
      requires At(st, me) == l.(at := if l.key in st.ticketOf then Probing else Reopening)
      modifies `st, `trace, `made, `ended
      ensures Valid() && Later(old(st), st) && At(st, me).Idle?
      ensures if r == Ok(Advertised.Asked) then IsNewest(old(Made(me)), Made(me), l.key) else Made(me) == old(Made(me))
    {
      var reopened := TryReopenUnanswered(me, l);
      match reopened {
        case Err => return Err;
        case Ok(Reopened) => return Ok(Advertised.Asked);
        case Ok(Exhausted) =>
          // Somebody else may have spent a use on the same question meanwhile.
          ghost var at;
          var refresh;
          refresh, at := Statement(me);
          return if !refresh.ok then Err else if refresh.hit then Ok(AlreadyAdvertised) else Ok(Advertised.TicketExhausted);
        case Ok(NotUnanswered) => r := InsertOrRetry(me, l);
      }
    }

    /** The insert; losing it to another insert means one more refresh and reopen. */
    method InsertOrRetry(me: Actor, l: Local) returns (r: Result<Advertised>)
      requires Valid() && l.Asking? && !l.second && At(st, me) == l.(at := Inserting) && MayAsk(st, l.key)
      modifies `st, `trace, `made, `ended
      ensures Valid() && Later(old(st), st) && At(st, me).Idle?
      ensures if r == Ok(Advertised.Asked) then IsNewest(old(Made(me)), Made(me), l.key) else Made(me) == old(Made(me))
    {
      ghost var at;
      var insert, refresh;
      insert, at := Statement(me);
      if !insert.ok { return Err; }
      if insert.hit { return Ok(Advertised.Asked); }
      refresh, at := Statement(me);
      if !refresh.ok { return Err; }
      if refresh.hit { return Ok(AlreadyAdvertised); }
      var reopened := TryReopenUnanswered(me, l.(second := true));
      match reopened {
        case Err => return Err;
        case Ok(Reopened) => return Ok(Advertised.Asked);
        case Ok(Exhausted) => return Ok(Advertised.TicketExhausted);
        case Ok(NotUnanswered) => return Ok(AlreadyAdvertised);
      }
    }

    /** The guarded UPDATE of settle_request_internal; the row as read is the next one on the list. */
    method SettleRow(me: Actor, snap: Snapshot, rest: seq<Snapshot>, to: Status, scope: Option<Scope>) returns (r: Result<bool>)
      requires Valid() && At(st, me) == Settling([snap] + rest, to, scope)
      modifies `st, `trace, `made, `ended
      ensures Valid() && Later(old(st), st)
      ensures At(st, me) == if r.Err? then Idle
                            else if r.value && snap.ticket.Some? && to != Approved then Repaying(snap.ticket.value, rest, to, scope)
                            else Onward(rest, to, scope)
      ensures if r == Ok(true) then IsNewest(old(Ended(me)), Ended(me), snap.key) else Ended(me) == old(Ended(me))
      ensures r.Ok? ==> Ask(snap.key, snap.number) in st.log.outcome
    {
      Wait(me);
      InShape();
      assert ([snap] + rest)[1..] == rest;
      var ok := *;
      if ok { SettledOrOver(st, me); }
      SettleLeadsTo(st, me, ok);
      r := if ok then Ok(Wins(st, snap)) else Err;
      Do(me, Settle(me, ok));
    }

    /** settle_request_internal on the next row read: whether this call is what ended the ask. */
    method SettleNextRow(me: Actor, snap: Snapshot, rest: seq<Snapshot>, to: Status, scope: Option<Scope>) returns (r: Result<bool>)
      requires Valid() && At(st, me) == Settling([snap] + rest, to, scope)
      modifies `st, `trace, `made, `ended
      ensures Valid() && Later(old(st), st)
      ensures At(st, me) == if r.Ok? then Onward(rest, to, scope) else Idle
      ensures if r == Ok(true) then IsNewest(old(Ended(me)), Ended(me), snap.key) else Ended(me) == old(Ended(me))
      ensures r.Ok? ==> Ask(snap.key, snap.number) in st.log.outcome
    {
      r := SettleRow(me, snap, rest, to, scope);
      if r == Ok(true) && to != Approved && snap.ticket.Some? {
        Repays(me, snap.ticket.value, rest, to, scope);
      }
    }

    /** The refund of an unapproved end; one that fails is only logged. */
    method Repays(me: Actor, t: TicketId, rest: seq<Snapshot>, to: Status, scope: Option<Scope>)
      requires Valid() && At(st, me) == Repaying(t, rest, to, scope)
      modifies `st, `trace, `made, `ended
      ensures Valid() && Later(old(st), st) && At(st, me) == Onward(rest, to, scope) && Ended(me) == old(Ended(me))
    {
      Wait(me);
      var refunded := *;
      Do(me, Repay(me, refunded));
    }

    /** The rows read, one by one, until one errors. */
    method SettleAll(me: Actor, read: seq<Snapshot>, to: Status, scope: Option<Scope>) returns (r: Result<nat>)
      requires Valid() && At(st, me) == Onward(read, to, scope)
      modifies `st, `trace, `made, `ended
      ensures Valid() && Later(old(st), st) && At(st, me).Idle?
      ensures |Ended(me)| >= |old(Ended(me))| && (r.Ok? ==> |Ended(me)| == |old(Ended(me))| + r.value)
      ensures r.Ok? ==> AllOver(st.log, read)
    {
      var moved := 0;
      for i := 0 to |read|
        invariant AllOver(st.log, read[..i])
        invariant Valid() && Later(old(st), st)
        invariant At(st, me) == Onward(read[i..], to, scope)
        invariant |Ended(me)| == |old(Ended(me))| + moved
      {
        ghost var before := st;
        assert read[i..] == [read[i]] + read[i + 1..];
        var one := SettleNextRow(me, read[i], read[i + 1..], to, scope);
        LaterStill(old(st), before, st);
        if one.Err? { return Err; }
        moved := moved + if one.value then 1 else 0;
        OverStays(before, st, read[..i]);
        assert read[..i + 1] == read[..i] + [read[i]];
      }
      assert read[..|read|] == read;
      return Ok(moved);
    }

    /**
     close_request and abandon_each: read the pending rows, then settle them. If none failed,
     every question read has an outcome, and the count is of those this call ended.
     */
    method SettleEach(me: Actor, keys: seq<Key>, to: Status, scope: Option<Scope>)
      returns (r: Result<nat>, ghost read: seq<Snapshot>, ghost at: State)
      requires Valid() && At(st, me).Idle? && to != Pending
      modifies `st, `trace, `made, `ended
      ensures Valid() && Later(old(st), at) && Later(at, st) && At(st, me).Idle? && read == Snapshots(at, keys)
      ensures |Ended(me)| >= |old(Ended(me))| && (r.Ok? ==> |Ended(me)| == |old(Ended(me))| + r.value)
      ensures r.Ok? ==> AllOver(st.log, read)
    {
      Wait(me);
      at := st;
      read := Snapshots(st, keys);
      var ok := *;
      if !ok { return Err, read, at; }
      var todo := Snapshots(st, keys);
      Do(me, Read(me, keys, to, scope));
      r := SettleAll(me, todo, to, scope);
    }
  }
}
