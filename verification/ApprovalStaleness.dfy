/**
 Who may settle an ask they never read: exactly those who still hold the row of an
 earlier ask of the key that carried the same `started`.
 */
module ApprovalStaleness {
  import opened Prelude
  import opened Approvals
  import opened ApprovalOutcomes

  /** The rows a caller has read and not settled yet. */
  function Todo(l: Local): seq<Snapshot> {
    if l.Settling? || l.Repaying? then l.todo else []
  }

  /** Some caller still holds a row of the key that was read with this `started`. */
  ghost predicate StampHeld(s: State, k: Key, started: Time) {
    exists a, snap :: snap in Todo(At(s, a)) && snap.key == k && snap.started == started
  }

  /** The step settles the ask, by a row read of an earlier ask of the key. */
  predicate SettlesStale(s: State, step: Step, ask: Ask)
    requires Enabled(s, step)
  {
    AskSettled(s, step) == Some(ask) && At(s, step.a).todo[0].number < ask.number
  }

  predicate StaleSettleIn(s: State, steps: seq<Step>, ask: Ask)
    requires Run(s, steps)
    decreases |steps|
  {
    steps != [] && (SettlesStale(s, steps[0], ask) || StaleSettleIn(Next(s, steps[0]), steps[1..], ask))
  }

  // ----- A caller's rows come from one SELECT -----

  predicate OneRead(todo: seq<Snapshot>) {
    forall x, y :: x in todo && y in todo && x.key == y.key ==> x.number == y.number
  }

  ghost predicate Coherent(s: State) {
    forall a :: OneRead(Todo(At(s, a)))
  }

  lemma {:induction false} SnapshotsAreLatest(s: State, keys: seq<Key>)
    ensures forall snap :: snap in Snapshots(s, keys) ==> snap.number == Tally(s.log.asks, snap.key)
  {
    if keys != [] {
      SnapshotsAreLatest(s, keys[1..]);
    }
  }

  /** A step adds to what a caller holds only by reading, and then only latest asks. */
  lemma HeldBefore(s: State, step: Step, a: Actor, snap: Snapshot)
    requires Enabled(s, step) && snap in Todo(At(Next(s, step), a))
    ensures snap in Todo(At(s, a)) || (step.Read? && step.a == a && snap.number == Tally(s.log.asks, snap.key))
  {
    match step
    case Read(b, keys, to, scope) => SnapshotsAreLatest(s, keys);
    case Upsert(b, ok) =>
      assert a != b ==> At(Next(s, step), a) == At(s, a) by { OthersStay(s, step, a); }
    case _ => if Actors(step) != {a} { OthersStay(s, step, a); }
  }

  lemma StepCoherent(s: State, step: Step)
    requires Enabled(s, step) && Coherent(s)
    ensures Coherent(Next(s, step))
  {
    forall a ensures OneRead(Todo(At(Next(s, step), a))) {
      assert OneRead(Todo(At(s, a)));
      forall x, y | x in Todo(At(Next(s, step), a)) && y in Todo(At(Next(s, step), a)) && x.key == y.key ensures x.number == y.number {
        HeldBefore(s, step, a, x);
        HeldBefore(s, step, a, y);
      }
    }
  }

  ghost predicate Inv(s: State) { Shape(s) && Coherent(s) }

  lemma {:induction false} RunInv(s: State, steps: seq<Step>)
    requires Inv(s) && Run(s, steps)
    ensures Inv(Exec(s, steps))
    decreases |steps|
  {
    if steps != [] {
      StepShape(s, steps[0]);
      StepCoherent(s, steps[0]);
      RunInv(Next(s, steps[0]), steps[1..]);
    }
  }

  // ----- A stale settle needs a holder -----

  /** Someone holds a row read of an earlier ask than this one, with this one's stamp. */
  ghost predicate OlderHeld(s: State, ask: Ask) {
    && ask in s.log.stamps
    && exists a, snap :: snap in Todo(At(s, a)) && snap.key == ask.key && snap.number < ask.number && snap.started == s.log.stamps[ask]
  }

  lemma StampsStay(s: State, step: Step, ask: Ask)
    requires Shape(s) && Enabled(s, step) && ask in s.log.stamps
    ensures ask in Next(s, step).log.stamps && Next(s, step).log.stamps[ask] == s.log.stamps[ask]
  {
    LogWrites(s, step);
  }

  lemma OlderHeldBefore(s: State, step: Step, ask: Ask)
    requires Shape(s) && Enabled(s, step) && ask in s.log.stamps && OlderHeld(Next(s, step), ask)
    ensures OlderHeld(s, ask)
  {
    var t := Next(s, step);
    StampsStay(s, step, ask);
    var a, snap :| snap in Todo(At(t, a)) && snap.key == ask.key && snap.number < ask.number && snap.started == t.log.stamps[ask];
    HeldBefore(s, step, a, snap);
    assert ask.number <= Tally(s.log.asks, ask.key);
  }

  lemma SettlerHeldOlder(s: State, step: Step, ask: Ask)
    requires Shape(s) && Enabled(s, step) && SettlesStale(s, step, ask)
    ensures OlderHeld(s, ask)
  {
    var snap := At(s, step.a).todo[0];
    assert RowOk(s.ticketOf, s.log, snap.key, s.rows[snap.key]);
    assert snap in Todo(At(s, step.a));
  }

  lemma {:induction false} StaleSettleNeedsHolder(s: State, steps: seq<Step>, ask: Ask)
    requires Shape(s) && Run(s, steps) && StaleSettleIn(s, steps, ask) && ask in s.log.stamps
    ensures OlderHeld(s, ask)
    decreases |steps|
  {
    if SettlesStale(s, steps[0], ask) {
      SettlerHeldOlder(s, steps[0], ask);
    } else {
      StepShape(s, steps[0]);
      StampsStay(s, steps[0], ask);
      StaleSettleNeedsHolder(Next(s, steps[0]), steps[1..], ask);
      OlderHeldBefore(s, steps[0], ask);
    }
  }

  // ----- A holder can go on to settle -----

  /** The caller holds an older row of the pending key that passes the guard. */
  ghost predicate Poised(s: State, a: Actor, k: Key) {
    exists snap :: snap in Todo(At(s, a)) && snap.key == k && snap.number < Tally(s.log.asks, k) && Wins(s, snap)
  }

  lemma StaleSettleFrom(s: State, step: Step, rest: seq<Step>, ask: Ask)
    requires Enabled(s, step) && Orderly(s, step) && Run(Next(s, step), rest)
    requires SettlesStale(s, step, ask) || StaleSettleIn(Next(s, step), rest, ask)
    ensures Run(s, [step] + rest) && StaleSettleIn(s, [step] + rest, ask)
  {
    RunFrom(s, step, rest);
    assert ([step] + rest)[1..] == rest;
  }

  /** Its next row is this key's: the settle is stale. */
  lemma SettlesNow(s: State, a: Actor, k: Key)
    requires Inv(s) && Poised(s, a, k) && At(s, a).Settling? && At(s, a).todo[0].key == k
    ensures Enabled(s, Settle(a, true)) && SettlesStale(s, Settle(a, true), s.log.Latest(k))
  {
    var l := At(s, a);
    var snap :| snap in Todo(l) && snap.key == k && snap.number < Tally(s.log.asks, k) && Wins(s, snap);
    assert OneRead(Todo(l)) && l.todo[0] in Todo(l);
    assert LocalOk(s.ticketOf, s.log, l);
    assert SnapshotOk(s.ticketOf, s.log, l.todo[0]);
    assert forall x :: x in l.todo ==> SnapshotOk(s.ticketOf, s.log, x);
  }

  lemma SettleTouchesOneKey(s: State, l: Local, k: Key)
    requires l.Settling? && l.todo != [] && l.todo[0].key != k
    ensures var t := SettleEffect(s, l, true);
            t.log.asks == s.log.asks && (k in t.rows <==> k in s.rows) && (k in s.rows ==> t.rows[k] == s.rows[k])
  {}

  lemma SettleMovesOn(s: State, l: Local)
    requires l.Settling? && l.todo != []
    ensures Todo(SettleNext(s, l, true)) == l.todo[1..]
  {}

  /** Its next row is another key's: settling that one leaves it poised. */
  lemma PassesOver(s: State, a: Actor, k: Key)
    requires Inv(s) && Poised(s, a, k) && At(s, a).Settling? && At(s, a).todo[0].key != k
    ensures Enabled(s, Settle(a, true)) && Poised(Next(s, Settle(a, true)), a, k)
    ensures Next(s, Settle(a, true)).log.Latest(k) == s.log.Latest(k)
    ensures |Todo(At(Next(s, Settle(a, true)), a))| < |Todo(At(s, a))|
  {
    var l, t := At(s, a), Next(s, Settle(a, true));
    var snap :| snap in Todo(l) && snap.key == k && snap.number < Tally(s.log.asks, k) && Wins(s, snap);
    SettleTouchesOneKey(s, l, k);
    SettleMovesOn(s, l);
    assert snap in l.todo[1..] && Wins(t, snap);
  }

  lemma {:induction false} HolderSettles(s: State, a: Actor, k: Key) returns (steps: seq<Step>)
    requires Inv(s) && Poised(s, a, k)
    ensures Run(s, steps) && StaleSettleIn(s, steps, s.log.Latest(k))
    decreases |Todo(At(s, a))|, At(s, a).Repaying?
  {
    var step := if At(s, a).Settling? then Settle(a, true) else Repay(a, true);
    if At(s, a).Settling? && At(s, a).todo[0].key == k {
      SettlesNow(s, a, k);
      steps := [step] + [];
      StaleSettleFrom(s, step, [], s.log.Latest(k));
    } else {
      if At(s, a).Settling? {
        PassesOver(s, a, k);
      } else {
        RepaysFirst(s, a, k);
      }
      StepShape(s, step);
      StepCoherent(s, step);
      var rest := HolderSettles(Next(s, step), a, k);
      StaleSettleFrom(s, step, rest, s.log.Latest(k));
      steps := [step] + rest;
    }
  }

  lemma RepaysFirst(s: State, a: Actor, k: Key)
    requires Poised(s, a, k) && At(s, a).Repaying?
    ensures Enabled(s, Repay(a, true)) && Poised(Next(s, Repay(a, true)), a, k)
    ensures Next(s, Repay(a, true)).log.Latest(k) == s.log.Latest(k)
    ensures At(Next(s, Repay(a, true)), a).Settling? && Todo(At(Next(s, Repay(a, true)), a)) == Todo(At(s, a))
  {
    var l, t := At(s, a), Next(s, Repay(a, true));
    var snap :| snap in Todo(l) && snap.key == k && snap.number < Tally(s.log.asks, k) && Wins(s, snap);
    assert t.rows == s.rows && t.log == s.log;
    assert snap in Todo(At(t, a));
  }

  // ----- Exactly when -----

  /** The ask a step made is the latest of its key, pending with the stamp it brought. */
  lemma JustAsked(s: State, step: Step)
    requires Shape(s) && Enabled(s, step) && AskMade(s, step).Some?
    ensures var t, ask := Next(s, step), AskMade(s, step).value;
            && t.log.Latest(ask.key) == ask && ask in t.log.stamps && t.log.stamps[ask] == At(s, step.a).started
            && PendingAt(t, ask.key) && t.rows[ask.key].started == At(s, step.a).started
    ensures forall a :: Todo(At(Next(s, step), a)) == Todo(At(s, a))
  {
    LogWrites(s, step);
    UpsertWrites(s, step.a, step.ok);
    forall a ensures Todo(At(Next(s, step), a)) == Todo(At(s, a)) {
      if a != step.a {
        OthersStay(s, step, a);
      }
    }
  }

  lemma HeldIsOlder(s: State, a: Actor, snap: Snapshot)
    requires Shape(s) && snap in Todo(At(s, a))
    ensures 1 <= snap.number <= Tally(s.log.asks, snap.key)
  {
    assert LocalOk(s.ticketOf, s.log, At(s, a));
    assert SnapshotOk(s.ticketOf, s.log, snap);
  }

  lemma StaleSettleNeedsStamp(s: State, step: Step, steps: seq<Step>)
    requires Inv(s) && Enabled(s, step) && Orderly(s, step) && AskMade(s, step).Some?
    requires Run(Next(s, step), steps) && StaleSettleIn(Next(s, step), steps, AskMade(s, step).value)
    ensures StampHeld(s, At(s, step.a).key, At(s, step.a).started)
  {
    var t, ask := Next(s, step), AskMade(s, step).value;
    JustAsked(s, step);
    StepShape(s, step);
    StaleSettleNeedsHolder(t, steps, ask);
    var a, snap :| snap in Todo(At(t, a)) && snap.key == ask.key && snap.number < ask.number && snap.started == t.log.stamps[ask];
    assert snap in Todo(At(s, a));
  }

  lemma HeldStampIsPoised(s: State, step: Step) returns (a: Actor)
    requires Inv(s) && Enabled(s, step) && Orderly(s, step) && AskMade(s, step).Some?
    requires StampHeld(s, At(s, step.a).key, At(s, step.a).started)
    ensures Poised(Next(s, step), a, At(s, step.a).key) && Next(s, step).log.Latest(At(s, step.a).key) == AskMade(s, step).value
  {
    JustAsked(s, step);
    var holder, snap :| snap in Todo(At(s, holder)) && snap.key == At(s, step.a).key && snap.started == At(s, step.a).started;
    HeldIsOlder(s, holder, snap);
    a := holder;
    assert snap in Todo(At(Next(s, step), a)) && Wins(Next(s, step), snap);
  }

  lemma HeldStampAllowsStaleSettle(s: State, step: Step) returns (steps: seq<Step>)
    requires Inv(s) && Enabled(s, step) && Orderly(s, step) && AskMade(s, step).Some?
    requires StampHeld(s, At(s, step.a).key, At(s, step.a).started)
    ensures Run(Next(s, step), steps) && StaleSettleIn(Next(s, step), steps, AskMade(s, step).value)
  {
    var a := HeldStampIsPoised(s, step);
    StepShape(s, step);
    StepCoherent(s, step);
    steps := HolderSettles(Next(s, step), a, At(s, step.a).key);
  }

  /** The ask this step makes can go on to be settled by a caller that read an earlier one. */
  ghost predicate CanBeSettledStale(s: State, step: Step)
    requires Enabled(s, step) && AskMade(s, step).Some?
  {
    exists steps :: Run(Next(s, step), steps) && StaleSettleIn(Next(s, step), steps, AskMade(s, step).value)
  }

  /** In every reachable state that is so if and only if a caller still holds a row of the key with the ask's `started`. */
  lemma StaleSettleIffStampHeld(origin: State, before: seq<Step>, step: Step)
    requires Initial(origin) && Run(origin, before)
    requires Enabled(Exec(origin, before), step) && Orderly(Exec(origin, before), step) && AskMade(Exec(origin, before), step).Some?
    ensures var s := Exec(origin, before);
            CanBeSettledStale(s, step) <==> StampHeld(s, At(s, step.a).key, At(s, step.a).started)
  {
    var s := Exec(origin, before);
    RunInv(origin, before);
    if CanBeSettledStale(s, step) {
      var steps :| Run(Next(s, step), steps) && StaleSettleIn(Next(s, step), steps, AskMade(s, step).value);
      StaleSettleNeedsStamp(s, step, steps);
    } else if StampHeld(s, At(s, step.a).key, At(s, step.a).started) {
      var steps := HeldStampAllowsStaleSettle(s, step);
    }
  }

  // ----- It happens -----

  /** One more step of a run. */
  lemma Onwards(s: State, steps: seq<Step>, step: Step)
    requires Run(s, steps) && Enabled(Exec(s, steps), step) && Orderly(Exec(s, steps), step)
    ensures Run(s, steps + [step]) && Exec(s, steps + [step]) == Next(Exec(s, steps), step)
  {
    RunFrom(Exec(s, steps), step, []);
    RunThen(s, steps, [step]);
  }

  lemma {:induction false} StaleSettleLater(s: State, first: seq<Step>, second: seq<Step>, ask: Ask)
    requires Run(s, first) && Run(Exec(s, first), second) && StaleSettleIn(Exec(s, first), second, ask)
    ensures Run(s, first + second) && StaleSettleIn(s, first + second, ask)
    decreases |first|
  {
    RunThen(s, first, second);
    if first == [] {
      assert first + second == second;
    } else {
      StaleSettleLater(Next(s, first[0]), first[1..], second, ask);
      assert (first + second)[1..] == first[1..] + second;
    }
  }

  /** Without a ticket and without a row, an upsert goes from its refresh to the reopen to the insert. */
  lemma GoesOn(s: State, k: Key, x: Time, at: Point)
    requires At(s, 0) == Asking(k, x, at, false) && at in {Refreshing, Reopening} && k !in s.ticketOf && k !in s.rows
    ensures Orderly(s, Upsert(0, true))
    ensures Next(s, Upsert(0, true)) == Goto(s, 0, Asking(k, x, if at == Refreshing then Reopening else Inserting, false))
  {}

  lemma Inserts(s: State, k: Key, x: Time)
    requires At(s, 0) == Asking(k, x, Inserting, false) && k !in s.ticketOf && s.rows == map[] && Tally(s.log.asks, k) == 0
    requires At(s, 1).Idle? && At(s, 2).Idle?
    ensures Orderly(s, Upsert(0, true)) && Asking1(Next(s, Upsert(0, true)), k, x)
  {}

  /** A key without a ticket asks for the first time. */
  lemma FirstAsk(s: State, k: Key, x: Time) returns (steps: seq<Step>)
    requires Initial(s) && k !in s.ticketOf
    ensures Run(s, steps) && Asking1(Exec(s, steps), k, x)
  {
    var go := Upsert(0, true);
    var s1 := Goto(s, 0, Asking(k, x, Refreshing, false));
    var s2 := Goto(s1, 0, Asking(k, x, Reopening, false));
    var s3 := Goto(s2, 0, Asking(k, x, Inserting, false));
    GoesOn(s1, k, x, Refreshing);
    GoesOn(s2, k, x, Reopening);
    Inserts(s3, k, x);
    RunFrom(s3, go, []);
    RunFrom(s2, go, [go] + []);
    RunFrom(s1, go, [go] + ([go] + []));
    RunFrom(s, Begin(0, k, x), [go] + ([go] + ([go] + [])));
    steps := [Begin(0, k, x)] + ([go] + ([go] + ([go] + [])));
  }

  /** The key's first question is pending, and nobody is under way. */
  predicate Asking1(s: State, k: Key, x: Time) {
    && s.rows == map[k := Row(Pending, x, None, None, false)] && k !in s.ticketOf && Tally(s.log.asks, k) == 1
    && At(s, 0).Idle? && At(s, 1).Idle? && At(s, 2).Idle?
  }

  /** One caller holds the first question's row, and another has let it time out. */
  predicate TimedOutHeld(s: State, k: Key, x: Time) {
    && UnansweredAt(s, k) && k !in s.ticketOf && Tally(s.log.asks, k) == 1
    && At(s, 0).Idle? && At(s, 1) == Settling([Snapshot(k, x, None, 1)], Rejected, None)
  }

  lemma TimesOut(s: State, k: Key, x: Time) returns (steps: seq<Step>)
    requires Asking1(s, k, x)
    ensures Run(s, steps) && TimedOutHeld(Exec(s, steps), k, x)
  {
    var snap := Snapshot(k, x, None, 1);
    assert Snapshots(s, [k]) == [snap];
    steps := [];
    Onwards(s, steps, Read(1, [k], Rejected, None));
    steps := steps + [Read(1, [k], Rejected, None)];
    var s1 := Exec(s, steps);
    assert s1 == Goto(s, 1, Settling([snap], Rejected, None));
    assert Snapshots(s1, [k]) == [snap];
    Onwards(s, steps, Read(2, [k], TimedOut, None));
    steps := steps + [Read(2, [k], TimedOut, None)];
    LetsLapse(Exec(s, steps), k, x);
    Onwards(s, steps, Settle(2, true));
    steps := steps + [Settle(2, true)];
  }

  lemma LetsLapse(s: State, k: Key, x: Time)
    requires s.rows == map[k := Row(Pending, x, None, None, false)] && k !in s.ticketOf && Tally(s.log.asks, k) == 1 && At(s, 0).Idle?
    requires At(s, 1) == Settling([Snapshot(k, x, None, 1)], Rejected, None)
    requires At(s, 2) == Settling([Snapshot(k, x, None, 1)], TimedOut, None)
    ensures Enabled(s, Settle(2, true)) && TimedOutHeld(Next(s, Settle(2, true)), k, x)
  {}

  /** The key is about to be asked again with the stamp it had. */
  lemma AsksAgain(s: State, k: Key, x: Time) returns (steps: seq<Step>)
    requires TimedOutHeld(s, k, x)
    ensures Run(s, steps) && At(Exec(s, steps), 0) == Asking(k, x, Reopening, false) && UnansweredAt(Exec(s, steps), k)
    ensures Tally(Exec(s, steps).log.asks, k) == 1 && k !in Exec(s, steps).ticketOf && StampHeld(Exec(s, steps), k, x)
  {
    steps := [];
    Onwards(s, steps, Begin(0, k, x));
    steps := steps + [Begin(0, k, x)];
    var s1 := Exec(s, steps);
    assert s1 == Goto(s, 0, Asking(k, x, Refreshing, false));
    Onwards(s, steps, Upsert(0, true));
    steps := steps + [Upsert(0, true)];
    assert Exec(s, steps) == Goto(s1, 0, Asking(k, x, Reopening, false));
    assert Snapshot(k, x, None, 1) in Todo(At(Exec(s, steps), 1));
  }

  /**
   From empty tables: a question is asked, read, timed out by someone else and asked again
   with the same `started`, and the second question is settled by the reader of the first.
   */
  lemma ReaskSettledByOldReader(s: State, k: Key, x: Time) returns (steps: seq<Step>)
    requires Initial(s) && k !in s.ticketOf
    ensures Run(s, steps) && StaleSettleIn(s, steps, Ask(k, 2))
  {
    var first := FirstAsk(s, k, x);
    var lapse := TimesOut(Exec(s, first), k, x);
    RunThen(s, first, lapse);
    var again := AsksAgain(Exec(s, first + lapse), k, x);
    var before := first + lapse + again;
    RunThen(s, first + lapse, again);
    var t := Exec(s, before);
    RunInv(s, before);
    var reopen := Upsert(0, true);
    assert AskMade(t, reopen) == Some(Ask(k, 2));
    var settling := HeldStampAllowsStaleSettle(t, reopen);
    StaleSettleFrom(t, reopen, settling, Ask(k, 2));
    StaleSettleLater(s, before, [reopen] + settling, Ask(k, 2));
    steps := before + ([reopen] + settling);
  }
}
