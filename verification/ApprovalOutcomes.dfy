/** Each ask is settled at most once, by a caller that read that very ask. */
module ApprovalOutcomes {
  import opened Prelude
  import opened Approvals

  predicate SnapshotOk(tickets: Tickets, log: Log, snap: Snapshot) {
    var ask := Ask(snap.key, snap.number);
    && ask in log.stamps && log.stamps[ask] == snap.started
    && snap.ticket == Ticket(tickets, snap.key)
  }

  predicate TodoOk(tickets: Tickets, log: Log, todo: seq<Snapshot>) {
    forall i :: 0 <= i < |todo| ==> SnapshotOk(tickets, log, todo[i])
  }

  predicate LocalOk(tickets: Tickets, log: Log, l: Local) {
    match l
    case Settling(todo, to, _) => to != Pending && TodoOk(tickets, log, todo)
    case Repaying(_, todo, to, _) => to != Pending && TodoOk(tickets, log, todo)
    case Asking(k, _, at, _) => at.Probing? || at.Finding? || at.Spending? || at.Returning? ==> k in tickets
    case _ => true
  }

  /** A row stands for its key's latest ask, and is pending exactly while that has no outcome. */
  predicate RowOk(tickets: Tickets, log: Log, k: Key, row: Row) {
    var ask := log.Latest(k);
    && row.ticket == Ticket(tickets, k)
    && ask in log.stamps && log.stamps[ask] == row.started
    && (row.status == Pending <==> ask !in log.outcome)
    && (ask in log.outcome ==> log.outcome[ask] == row.status)
    && (row.consumed ==> row.status.Decided())
  }

  /** Asks are numbered from 1, and all but the latest have an outcome. */
  ghost predicate LogOk(log: Log) {
    && (forall ask :: ask in log.stamps <==> 1 <= ask.number <= Tally(log.asks, ask.key))
    && (forall ask :: ask in log.outcome ==> ask in log.stamps)
    && (forall ask :: ask in log.stamps && ask.number < Tally(log.asks, ask.key) ==> ask in log.outcome)
  }

  ghost predicate RowsOk(tickets: Tickets, log: Log, rows: map<Key, Row>) {
    && (forall k :: k in rows ==> RowOk(tickets, log, k, rows[k]))
    && (forall ask :: ask in log.stamps && ask.key !in rows ==> ask in log.outcome)
  }

  ghost predicate LocalsOk(tickets: Tickets, log: Log, pc: map<Actor, Local>) {
    forall a :: a in pc ==> LocalOk(tickets, log, pc[a])
  }

  /** What every reachable state keeps about rows, asks and what callers hold. */
  ghost predicate Shape(s: State) {
    LogOk(s.log) && RowsOk(s.ticketOf, s.log, s.rows) && LocalsOk(s.ticketOf, s.log, s.pc)
  }

  // One ask more, or one outcome more, does not disturb what callers hold.

  lemma LocalsOutlive(tickets: Tickets, log: Log, log': Log, pc: map<Actor, Local>)
    requires LocalsOk(tickets, log, pc)
    requires forall ask :: ask in log.stamps ==> ask in log'.stamps && log'.stamps[ask] == log.stamps[ask]
    ensures LocalsOk(tickets, log', pc)
  {
    forall a | a in pc ensures LocalOk(tickets, log', pc[a]) {
      assert LocalOk(tickets, log, pc[a]);
    }
  }

  lemma LogAskedOk(log: Log, k: Key, started: Time)
    requires LogOk(log)
    requires log.Latest(k) in log.stamps ==> log.Latest(k) in log.outcome
    ensures LogOk(LogAsked(log, k, started))
  {
    var log' := LogAsked(log, k, started);
    var made := log'.Latest(k);
    assert made !in log.stamps && log'.stamps == log.stamps[made := started];
    forall j | j != k ensures Tally(log'.asks, j) == Tally(log.asks, j) {}
    forall ask | ask in log'.stamps && ask.number < Tally(log'.asks, ask.key) ensures ask in log'.outcome {
      assert ask.key == k && ask.number == Tally(log.asks, k) ==> ask == log.Latest(k);
    }
  }

  lemma RowsAsked(tickets: Tickets, log: Log, rows: map<Key, Row>, k: Key, started: Time)
    requires LogOk(log) && RowsOk(tickets, log, rows)
    requires k in rows ==> rows[k].status != Pending
    ensures log.Latest(k) in log.stamps ==> log.Latest(k) in log.outcome
    ensures RowsOk(tickets, LogAsked(log, k, started), rows[k := Row(Pending, started, Ticket(tickets, k), None, false)])
  {
    assert k in rows ==> RowOk(tickets, log, k, rows[k]);
    var log', rows' := LogAsked(log, k, started), rows[k := Row(Pending, started, Ticket(tickets, k), None, false)];
    forall j | j in rows' ensures RowOk(tickets, log', j, rows'[j]) {
      assert log.Latest(k).number + 1 == log'.Latest(k).number && log'.Latest(k) !in log.stamps;
      assert j != k ==> RowOk(tickets, log, j, rows[j]) && log'.Latest(j) == log.Latest(j);
    }
  }

  /** A pending row is made only where there is none. */
  lemma AskedShape(s: State, k: Key, started: Time)
    requires Shape(s) && !PendingAt(s, k)
    ensures Shape(Asked(s, k, started))
  {
    RowsAsked(s.ticketOf, s.log, s.rows, k, started);
    LogAskedOk(s.log, k, started);
    LocalsOutlive(s.ticketOf, s.log, LogAsked(s.log, k, started), s.pc);
  }

  lemma RowsSettled(tickets: Tickets, log: Log, rows: map<Key, Row>, k: Key, to: Status, scope: Option<Scope>)
    requires RowsOk(tickets, log, rows) && k in rows && rows[k].status == Pending && to != Pending
    ensures RowsOk(tickets, LogSettled(log, k, to), rows[k := rows[k].(status := to, scope := scope)])
  {
    assert RowOk(tickets, log, k, rows[k]);
    var log', rows' := LogSettled(log, k, to), rows[k := rows[k].(status := to, scope := scope)];
    forall j | j in rows' ensures RowOk(tickets, log', j, rows'[j]) {
      assert j != k ==> RowOk(tickets, log, j, rows[j]);
    }
  }

  lemma SettledShape(s: State, k: Key, to: Status, scope: Option<Scope>)
    requires Shape(s) && PendingAt(s, k) && to != Pending
    ensures Shape(Settled(s, k, to, scope))
  {
    RowsSettled(s.ticketOf, s.log, s.rows, k, to, scope);
    assert RowOk(s.ticketOf, s.log, k, s.rows[k]);
    LocalsOutlive(s.ticketOf, s.log, LogSettled(s.log, k, to), s.pc);
  }

  /** Rewriting a row's facts without changing what it stands for. */
  lemma RowRewritten(s: State, k: Key, row: Row)
    requires Shape(s) && RowOk(s.ticketOf, s.log, k, row)
    ensures Shape(s.(rows := s.rows[k := row]))
  {}

  /** A caller may move on to any place whose knowledge is sound. */
  lemma MovesOn(s: State, a: Actor, l: Local)
    requires Shape(s) && LocalOk(s.ticketOf, s.log, l)
    ensures Shape(Goto(s, a, l))
  {}

  lemma RefreshedShape(s: State, k: Key)
    requires Shape(s) && PendingAt(s, k)
    ensures Shape(s.(rows := s.rows[k := s.rows[k].(ticket := TicketFor(s, k))]))
  {
    assert RowOk(s.ticketOf, s.log, k, s.rows[k]);
    RowRewritten(s, k, s.rows[k].(ticket := TicketFor(s, k)));
  }

  /** Ticket balances and books have no bearing on rows and asks. */
  lemma BooksAside(s: State, s': State)
    requires Shape(s) && s' == s.(uses := s'.uses, books := s'.books)
    ensures Shape(s')
  {}

  /** Whether the statement, as it finds the tables, writes the approval table. */
  predicate WritesRow(s: State, l: Local, ok: bool)
    requires l.Asking?
  {
    && ok
    && match l.at
       case Reopening => UnansweredAt(s, l.key)
       case Inserting => l.key !in s.rows
       case Refreshing | RefreshingExhausted => PendingAt(s, l.key)
       case _ => false
  }

  lemma OtherwiseOnlyBooks(s: State, l: Local, ok: bool)
    requires l.Asking? && !WritesRow(s, l, ok)
    ensures var s' := UpsertEffect(s, l, ok); s' == s.(uses := s'.uses, books := s'.books)
  {}

  lemma UpsertKeepsCallers(s: State, l: Local, ok: bool)
    requires l.Asking?
    ensures UpsertEffect(s, l, ok).pc == s.pc
  {
    if !WritesRow(s, l, ok) { OtherwiseOnlyBooks(s, l, ok); }
  }

  lemma OthersStay(s: State, step: Step, a: Actor)
    requires Enabled(s, step) && a !in Actors(step)
    ensures At(Next(s, step), a) == At(s, a)
  {
    if step.Upsert? {
      UpsertKeepsCallers(s, At(s, step.a), step.ok);
    }
  }

  lemma UpsertEffectShape(s: State, l: Local, ok: bool)
    requires Shape(s) && l.Asking?
    ensures Shape(UpsertEffect(s, l, ok))
  {
    if !WritesRow(s, l, ok) {
      OtherwiseOnlyBooks(s, l, ok);
      BooksAside(s, UpsertEffect(s, l, ok));
    } else if l.at.Reopening? {
      AskedShape(s, l.key, l.started);
    } else if l.at.Inserting? {
      BooksAside(s, Charged(s, l.key));
      AskedShape(Charged(s, l.key), l.key, l.started);
    } else {
      RefreshedShape(s, l.key);
    }
  }

  lemma UpsertNextOk(s: State, l: Local, ok: bool, log': Log)
    requires l.Asking? && LocalOk(s.ticketOf, s.log, l)
    ensures LocalOk(s.ticketOf, log', UpsertNext(s, l, ok))
  {}

  lemma UpsertShape(s: State, a: Actor, ok: bool)
    requires Shape(s) && At(s, a).Asking?
    ensures Shape(Next(s, Upsert(a, ok)))
  {
    var l := At(s, a);
    var s' := UpsertEffect(s, l, ok);
    UpsertEffectShape(s, l, ok);
    UpsertKeepsTickets(s, l, ok);
    UpsertNextOk(s, l, ok, s'.log);
    MovesOn(s', a, UpsertNext(s, l, ok));
  }

  lemma UpsertKeepsTickets(s: State, l: Local, ok: bool)
    requires l.Asking?
    ensures UpsertEffect(s, l, ok).ticketOf == s.ticketOf
  {
    if !WritesRow(s, l, ok) { OtherwiseOnlyBooks(s, l, ok); }
  }

  lemma SnapshotsOk(s: State, keys: seq<Key>)
    requires Shape(s)
    ensures TodoOk(s.ticketOf, s.log, Snapshots(s, keys))
    ensures forall snap :: snap in Snapshots(s, keys) ==> Wins(s, snap)
  {
    if keys != [] {
      SnapshotsOk(s, keys[1..]);
      assert keys[0] in s.rows ==> RowOk(s.ticketOf, s.log, keys[0], s.rows[keys[0]]);
    }
  }

  lemma TodoShrinks(tickets: Tickets, log: Log, log': Log, todo: seq<Snapshot>)
    requires TodoOk(tickets, log, todo) && todo != [] && log'.stamps == log.stamps
    ensures TodoOk(tickets, log', todo[1..])
  {}

  lemma SettleShape(s: State, a: Actor, ok: bool)
    requires Shape(s) && Enabled(s, Settle(a, ok))
    ensures Shape(Next(s, Settle(a, ok)))
  {
    var l := At(s, a);
    var s', l' := SettleEffect(s, l, ok), SettleNext(s, l, ok);
    assert Next(s, Settle(a, ok)) == Goto(s', a, l');
    assert LocalOk(s.ticketOf, s.log, l);
    if ok && Wins(s, l.todo[0]) {
      SettledShape(s, l.todo[0].key, l.to, l.scope);
    }
    TodoShrinks(s.ticketOf, s.log, s'.log, l.todo);
    MovesOn(s', a, l');
  }

  lemma AgeOutShape(s: State, cutoff: Time)
    requires Shape(s)
    ensures Shape(Next(s, AgeOut(cutoff)))
  {
    var gone := Aged(s, cutoff);
    forall ask | ask in s.log.stamps && ask.key !in s.rows - gone ensures ask in s.log.outcome {
      if ask.key in gone {
        assert RowOk(s.ticketOf, s.log, ask.key, s.rows[ask.key]);
        assert ask.number < s.log.Latest(ask.key).number || ask == s.log.Latest(ask.key);
      }
    }
  }

  lemma StepShape(s: State, step: Step)
    requires Shape(s) && Enabled(s, step) && Orderly(s, step)
    ensures Shape(Next(s, step))
  {
    match step
    case Upsert(a, ok) => UpsertShape(s, a, ok);
    case Settle(a, ok) => SettleShape(s, a, ok);
    case Read(a, keys, to, scope) =>
      SnapshotsOk(s, keys);
      MovesOn(s, a, Onward(Snapshots(s, keys), to, scope));
    case Repay(a, ok) =>
      var l := At(s, a);
      assert LocalOk(s.ticketOf, s.log, l);
      MovesOn(TryRefund(s, l.ticket, ok), a, Onward(l.todo, l.to, l.scope));
    case MarkConsumed(k) =>
      if k in s.rows {
        assert RowOk(s.ticketOf, s.log, k, s.rows[k]);
        RowRewritten(s, k, s.rows[k].(consumed := true));
      }
    case AgeOut(cutoff) => AgeOutShape(s, cutoff);
    case _ =>
  }

  /** No two asks of one key carry the same `started`. */
  ghost predicate Distinct(log: Log) {
    forall x, y :: x in log.stamps && y in log.stamps && x.key == y.key && log.stamps[x] == log.stamps[y] ==> x == y
  }

  /** What one upsert statement does to the table: at most it asks one key again. */
  lemma UpsertWrites(s: State, a: Actor, ok: bool)
    requires At(s, a).Asking?
    ensures var l, s' := At(s, a), UpsertEffect(s, At(s, a), ok);
            match AskMade(s, Upsert(a, ok))
            case Some(ask) => ask == Ask(l.key, Tally(s.log.asks, l.key) + 1)
                              && s'.rows == Asked(s, l.key, l.started).rows && s'.log == LogAsked(s.log, l.key, l.started)
            case None => s'.log == s.log && s'.rows.Keys == s.rows.Keys
                         && forall k :: k in s.rows ==> s'.rows[k] == s.rows[k] || PendingAt(s, k)
  {
    var l := At(s, a);
    match l.at
    case Reopening =>
    case Inserting =>
    case Returning(_) =>
    case _ =>
  }

  /** The log after a step. */
  lemma LogWrites(s: State, step: Step)
    requires Enabled(s, step)
    ensures Next(s, step).log ==
            match AskMade(s, step)
            case Some(ask) => LogAsked(s.log, ask.key, At(s, step.a).started)
            case None => match AskSettled(s, step)
                         case Some(ask) => LogSettled(s.log, ask.key, At(s, step.a).to)
                         case None => s.log
  {
    match step
    case Upsert(a, ok) => UpsertWrites(s, a, ok);
    case Settle(a, ok) =>
    case Repay(a, ok) =>
    case LoginSpend(a, ok) =>
    case _ =>
  }

  /** A decided row changes only by being marked consumed, and a missing row comes only with an ask. */
  lemma RowsWrites(s: State, step: Step, k: Key)
    requires Enabled(s, step)
    ensures k !in s.rows && k in Next(s, step).rows ==> AskMade(s, step).Some? && AskMade(s, step).value.key == k
    ensures k in s.rows && s.rows[k].status.Decided() && k in Next(s, step).rows ==>
              Next(s, step).rows[k] == s.rows[k].(consumed := Next(s, step).rows[k].consumed)
    ensures k in s.rows && s.rows[k].status.Decided() && AskMade(s, step).Some? ==> AskMade(s, step).value.key != k
  {
    match step
    case Upsert(a, ok) => UpsertWrites(s, a, ok);
    case Settle(a, ok) =>
    case Repay(a, ok) =>
    case LoginSpend(a, ok) =>
    case _ =>
  }

  lemma StepDistinct(s: State, step: Step)
    requires Enabled(s, step) && FreshAsk(s, step) && Distinct(s.log)
    ensures Distinct(Next(s, step).log)
  {
    LogWrites(s, step);
  }

  ghost predicate Sound(s: State) { Shape(s) && Distinct(s.log) }

  lemma InitiallySound(s: State)
    requires Initial(s)
    ensures Sound(s)
  {}

  /** Rows, asks and what callers hold agree after every run, stamps reused or not. */
  lemma {:induction false} RunShape(s: State, steps: seq<Step>)
    requires Shape(s) && Run(s, steps)
    ensures Shape(Exec(s, steps))
    decreases |steps|
  {
    if steps != [] {
      StepShape(s, steps[0]);
      RunShape(Next(s, steps[0]), steps[1..]);
    }
  }

  lemma {:induction false} RunIsSound(s: State, steps: seq<Step>)
    requires Sound(s) && Run(s, steps) && FreshRun(s, steps)
    ensures Sound(Exec(s, steps))
    decreases |steps|
  {
    if steps != [] {
      StepShape(s, steps[0]);
      StepDistinct(s, steps[0]);
      RunIsSound(Next(s, steps[0]), steps[1..]);
    }
  }

  /** Where no stamp was reused, whoever settles an ask read that very ask. */
  lemma SettlesWhatItRead(s: State, step: Step)
    requires Sound(s) && Enabled(s, step) && AskSettled(s, step).Some?
    ensures var snap := At(s, step.a).todo[0];
            AskSettled(s, step) == Some(Ask(snap.key, snap.number))
  {
    var l := At(s, step.a);
    var snap := l.todo[0];
    assert LocalOk(s.ticketOf, s.log, l);
    assert SnapshotOk(s.ticketOf, s.log, snap);
    assert RowOk(s.ticketOf, s.log, snap.key, s.rows[snap.key]);
  }

  lemma OutcomeStep(s: State, step: Step)
    requires Shape(s) && Enabled(s, step)
    ensures match AskSettled(s, step)
            case None => Next(s, step).log.outcome == s.log.outcome
            case Some(ask) => ask !in s.log.outcome && Next(s, step).log.outcome == s.log.outcome[ask := At(s, step.a).to]
  {
    LogWrites(s, step);
    if AskSettled(s, step).Some? {
      var k := At(s, step.a).todo[0].key;
      assert RowOk(s.ticketOf, s.log, k, s.rows[k]);
    }
  }

  /** How many steps of a run settle a given ask. */
  function Settlements(s: State, steps: seq<Step>, ask: Ask): nat
    requires Run(s, steps)
    decreases |steps|
  {
    if steps == [] then 0
    else (if AskSettled(s, steps[0]) == Some(ask) then 1 else 0) + Settlements(Next(s, steps[0]), steps[1..], ask)
  }

  /** Of all the settles, closes and abandons that race for one ask, at most one succeeds. */
  lemma {:induction false} OneSettlementPerAsk(s: State, steps: seq<Step>, ask: Ask)
    requires Shape(s) && Run(s, steps)
    ensures Settlements(s, steps, ask) == (if ask !in s.log.outcome && ask in Exec(s, steps).log.outcome then 1 else 0)
    ensures ask in s.log.outcome ==>
              ask in Exec(s, steps).log.outcome && Exec(s, steps).log.outcome[ask] == s.log.outcome[ask]
    decreases |steps|
  {
    if steps != [] {
      StepShape(s, steps[0]);
      OutcomeStep(s, steps[0]);
      OneSettlementPerAsk(Next(s, steps[0]), steps[1..], ask);
    }
  }

  /** The age-out removes a row only once its ask is over and, if decided, delivered. */
  lemma AgeOutSparesLiveRows(s: State, cutoff: Time, k: Key)
    requires Shape(s) && k in s.rows
    ensures k !in Next(s, AgeOut(cutoff)).rows ==>
              s.log.Latest(k) in s.log.outcome && s.rows[k].started < cutoff
              && (s.rows[k].status.Unanswered() || (s.rows[k].status.Decided() && s.rows[k].consumed))
    ensures k in Next(s, AgeOut(cutoff)).rows ==> Next(s, AgeOut(cutoff)).rows[k] == s.rows[k]
  {
    assert RowOk(s.ticketOf, s.log, k, s.rows[k]);
  }

  /** A decision stands, with its scope, for as long as its row does. */
  ghost predicate StillDecided(s: State, s': State, k: Key)
    requires k in s.rows
  {
    s'.log.Latest(k).number > s.log.Latest(k).number || k !in s'.rows
    || s'.rows[k] == s.rows[k].(consumed := s'.rows[k].consumed)
  }

  lemma {:induction false} DecisionsAreNotOverwritten(s: State, steps: seq<Step>, k: Key)
    requires Run(s, steps) && k in s.rows && s.rows[k].status.Decided()
    ensures StillDecided(s, Exec(s, steps), k)
    decreases |steps|
  {
    if steps != [] {
      var s' := Next(s, steps[0]);
      LogWrites(s, steps[0]);
      RowsWrites(s, steps[0], k);
      if k in s'.rows {
        DecisionsAreNotOverwritten(s', steps[1..], k);
      } else {
        NoRowMeansNewAsk(s', steps[1..], k);
      }
    }
  }

  /** Where a key has no row, a row can only come back as a new ask. */
  lemma {:induction false} NoRowMeansNewAsk(s: State, steps: seq<Step>, k: Key)
    requires Run(s, steps)
    ensures Tally(Exec(s, steps).log.asks, k) >= Tally(s.log.asks, k)
    ensures k !in s.rows && k in Exec(s, steps).rows ==> Tally(Exec(s, steps).log.asks, k) > Tally(s.log.asks, k)
    decreases |steps|
  {
    if steps != [] {
      LogWrites(s, steps[0]);
      RowsWrites(s, steps[0], k);
      NoRowMeansNewAsk(Next(s, steps[0]), steps[1..], k);
    }
  }
}
