/**
 The one way a ticket use appears: a key whose row was aged out asks again, by an insert
 that spends nothing.
 */
module ApprovalReasks {
  import opened Prelude
  import opened Approvals
  import opened ApprovalOutcomes
  import opened ApprovalLedger

  /** The step inserts a question for a key that has asked with this ticket before. */
  predicate Reask(s: State, step: Step, t: TicketId)
    requires Enabled(s, step)
  {
    && AskMade(s, step).Some? && At(s, step.a).at.Inserting?
    && TicketFor(s, At(s, step.a).key) == Some(t) && Bounded(s, t) && Tally(s.log.asks, At(s, step.a).key) >= 1
  }

  function Reasks(s: State, steps: seq<Step>, t: TicketId): nat
    requires Run(s, steps)
    decreases |steps|
  {
    if steps == [] then 0 else One(Reask(s, steps[0], t)) + Reasks(Next(s, steps[0]), steps[1..], t)
  }

  // ----- Unpaid questions are re-asks -----

  lemma InsertUnpaid(s: State, l: Local, t: TicketId)
    requires PaysOk(s) && l.Asking? && l.at.Inserting? && l.key !in s.rows && MayAsk(s, l.key)
    ensures Tally(UpsertEffect(s, l, true).books.unpaid, t) ==
            Tally(s.books.unpaid, t) + One(TicketFor(s, l.key) == Some(t) && Bounded(s, t) && Tally(s.log.asks, l.key) >= 1)
  {}

  lemma UpsertUnpaid(s: State, a: Actor, ok: bool, t: TicketId)
    requires PaysOk(s) && At(s, a).Asking? && Orderly(s, Upsert(a, ok))
    ensures Tally(Next(s, Upsert(a, ok)).books.unpaid, t) == Tally(s.books.unpaid, t) + One(Reask(s, Upsert(a, ok), t))
  {
    var l := At(s, a);
    if WritesRow(s, l, ok) && l.at.Inserting? {
      InsertUnpaid(s, l, t);
    } else if WritesRow(s, l, ok) {
      assert UpsertEffect(s, l, ok).books == s.books;
    } else {
      UpsertOtherwisePaid(s, l, ok);
    }
  }

  lemma UnpaidStep(s: State, step: Step, t: TicketId)
    requires PaysOk(s) && Enabled(s, step) && Orderly(s, step)
    ensures Tally(Next(s, step).books.unpaid, t) == Tally(s.books.unpaid, t) + One(Reask(s, step, t))
  {
    if step.Upsert? {
      UpsertUnpaid(s, step.a, step.ok, t);
    } else if !step.LoginSpend? {
      OtherwisePaid(s, step);
    }
  }

  /** Over every run, exactly the re-asks are unpaid. */
  lemma {:induction false} UnpaidAreReasks(s: State, steps: seq<Step>, t: TicketId)
    requires Inv(s) && Run(s, steps)
    ensures Tally(Exec(s, steps).books.unpaid, t) == Tally(s.books.unpaid, t) + Reasks(s, steps, t)
    decreases |steps|
  {
    if steps != [] {
      UnpaidStep(s, steps[0], t);
      StepInv(s, steps[0]);
      UnpaidAreReasks(Next(s, steps[0]), steps[1..], t);
    }
  }

  /** However the callers raced, a ticket ends between nothing and what it was issued, unless keys asked anew. */
  lemma NoUseFromNowhere(s: State, steps: seq<Step>, t: TicketId)
    requires Initial(s) && Run(s, steps) && Bounded(Exec(s, steps), t)
    ensures t in s.books.supply
    ensures 0 <= Exec(s, steps).uses[t].value <= s.books.supply[t] + Reasks(s, steps, t)
  {
    InitiallyBalanced(s);
    UsesAreConserved(s, steps);
    UnpaidAreReasks(s, steps, t);
    assert Balanced(Exec(s, steps), t);
  }

  // ----- A re-ask follows an age-out -----

  predicate AgesOut(s: State, step: Step, k: Key) {
    step.AgeOut? && k in Aged(s, step.cutoff)
  }

  /** Some step of the run deletes the key's row. */
  predicate AgedOutIn(s: State, steps: seq<Step>, k: Key)
    requires Run(s, steps)
    decreases |steps|
  {
    steps != [] && (AgesOut(s, steps[0], k) || AgedOutIn(Next(s, steps[0]), steps[1..], k))
  }

  predicate AskedHasRow(s: State, k: Key) {
    Tally(s.log.asks, k) >= 1 ==> k in s.rows
  }

  lemma RowStays(s: State, step: Step, k: Key)
    requires Enabled(s, step) && AskedHasRow(s, k) && !AgesOut(s, step, k)
    ensures AskedHasRow(Next(s, step), k)
  {
    LogWrites(s, step);
    if step.Upsert? {
      UpsertWrites(s, step.a, step.ok);
    }
  }

  lemma {:induction false} MissingRowWasAgedOut(s: State, steps: seq<Step>, k: Key)
    requires Run(s, steps) && AskedHasRow(s, k) && !AskedHasRow(Exec(s, steps), k)
    ensures AgedOutIn(s, steps, k)
    decreases |steps|
  {
    if steps != [] && !AgesOut(s, steps[0], k) {
      RowStays(s, steps[0], k);
      MissingRowWasAgedOut(Next(s, steps[0]), steps[1..], k);
    }
  }

  /** Every re-ask comes after an age-out deleted the key's row. */
  lemma ReaskFollowsAgeOut(s: State, steps: seq<Step>, step: Step, t: TicketId)
    requires Initial(s) && Run(s, steps) && Enabled(Exec(s, steps), step) && Reask(Exec(s, steps), step, t)
    ensures AgedOutIn(s, steps, At(Exec(s, steps), step.a).key)
  {
    MissingRowWasAgedOut(s, steps, At(Exec(s, steps), step.a).key);
  }

  // ----- One re-ask is enough -----

  /** Without a row to refresh or reopen, a ticketed upsert goes from its refresh to the probe to the insert. */
  lemma GoesOn(s: State, a: Actor, k: Key, started: Time, at: Point)
    requires At(s, a) == Asking(k, started, at, false) && at in {Refreshing, Probing} && k in s.ticketOf && k !in s.rows
    ensures Run(s, [Upsert(a, true)])
    ensures Exec(s, [Upsert(a, true)]) == Goto(s, a, Asking(k, started, if at == Refreshing then Probing else Inserting, false))
  {
    RunFrom(s, Upsert(a, true), []);
  }

  /** The key's question is pending and its caller done, at no cost. */
  predicate AskedForFree(s: State, s': State, a: Actor, k: Key) {
    && At(s', a).Idle? && PendingAt(s', k) && s'.rows[k].ticket == TicketFor(s, k)
    && s'.uses == s.uses && s'.ticketOf == s.ticketOf
  }

  lemma Inserts(s: State, a: Actor, k: Key, started: Time)
    requires At(s, a) == Asking(k, started, Inserting, false) && k !in s.rows && MayAsk(s, k)
    ensures Run(s, [Upsert(a, true)]) && AskedForFree(s, Exec(s, [Upsert(a, true)]), a, k)
  {
    RunFrom(s, Upsert(a, true), []);
  }

  lemma AsksByInsert(s: State, a: Actor, k: Key, started: Time) returns (steps: seq<Step>)
    requires At(s, a).Idle? && k in s.ticketOf && k !in s.rows && MayAsk(s, k)
    ensures Run(s, steps) && AskedForFree(s, Exec(s, steps), a, k)
  {
    var go := [Upsert(a, true)];
    var begun := Next(s, Begin(a, k, started));
    GoesOn(begun, a, k, started, Refreshing);
    var probing := Exec(begun, go);
    GoesOn(probing, a, k, started, Probing);
    var inserting := Exec(probing, go);
    Inserts(inserting, a, k, started);
    RunThen(probing, go, go);
    RunThen(begun, go, go + go);
    RunFrom(s, Begin(a, k, started), go + (go + go));
    steps := [Begin(a, k, started)] + (go + (go + go));
  }

  /** From a pending row, one caller abandons it and the refund goes through. */
  lemma AbandonsAndRefunds(s: State, a: Actor, k: Key, t: TicketId) returns (steps: seq<Step>)
    requires At(s, a).Idle? && PendingAt(s, k) && s.rows[k].ticket == Some(t)
    ensures Run(s, steps) && Exec(s, steps).uses == Refunded(s, t).uses
    ensures At(Exec(s, steps), a).Idle? && UnansweredAt(Exec(s, steps), k) && Exec(s, steps).ticketOf == s.ticketOf
  {
    var snap := Snapshot(k, s.rows[k].started, Some(t), Tally(s.log.asks, k));
    assert Snapshots(s, [k]) == [snap];
    var s1 := Goto(s, a, Settling([snap], Abandoned, None));
    var s2 := Goto(Settled(s1, k, Abandoned, None), a, Repaying(t, [], Abandoned, None));
    var s3 := Goto(Refunded(s2, t), a, Idle);
    assert Next(s2, Repay(a, true)) == s3;
    RunFrom(s2, Repay(a, true), []);
    assert Next(s1, Settle(a, true)) == s2;
    RunFrom(s1, Settle(a, true), [Repay(a, true)] + []);
    assert Next(s, Read(a, [k], Abandoned, None)) == s1;
    RunFrom(s, Read(a, [k], Abandoned, None), [Settle(a, true)] + ([Repay(a, true)] + []));
    steps := [Read(a, [k], Abandoned, None)] + ([Settle(a, true)] + ([Repay(a, true)] + []));
  }

  lemma AsksAndAbandons(s: State, a: Actor, k: Key, t: TicketId, started: Time) returns (steps: seq<Step>)
    requires At(s, a).Idle? && TicketFor(s, k) == Some(t) && k !in s.rows && MayAsk(s, k)
    ensures Run(s, steps) && Exec(s, steps).uses == Refunded(s, t).uses
    ensures At(Exec(s, steps), a).Idle? && UnansweredAt(Exec(s, steps), k) && Exec(s, steps).ticketOf == s.ticketOf
  {
    var asking := AsksByInsert(s, a, k, started);
    var ending := AbandonsAndRefunds(Exec(s, asking), a, k, t);
    RunThen(s, asking, ending);
    steps := asking + ending;
  }

  /** A question that ended and was refunded is aged out, the key asks again, and that one is refunded too. */
  lemma ReaskAfterAgeOutMintsAUse(s: State, a: Actor, k: Key, t: TicketId, started: Time) returns (steps: seq<Step>)
    requires Inv(s) && At(s, a).Idle? && UnansweredAt(s, k) && TicketFor(s, k) == Some(t) && Bounded(s, t)
    ensures Run(s, steps) && Exec(s, steps).uses == s.uses[t := Some(s.uses[t].value + 1)]
  {
    RowMeansAsked(s, k);
    var age := AgeOut(s.rows[k].started + 1);
    var rest := AsksAndAbandons(Next(s, age), a, k, t, started);
    RunFrom(s, age, rest);
    steps := [age] + rest;
  }

  lemma LogsIn(s: State, k: Key, t: TicketId) returns (steps: seq<Step>)
    requires Initial(s) && TicketFor(s, k) == Some(t) && CanSpend(s, t)
    ensures Run(s, steps)
    ensures var s' := Exec(s, steps);
            s'.uses == Spent(s, t).uses && s'.ticketOf == s.ticketOf && s'.rows == map[] && At(s', 0).Idle? && MayAsk(s', k)
  {
    var s1 := Goto(s, 0, LoggingIn(k));
    assert Next(s, LoginFind(0, k, true)) == s1;
    RunFrom(s1, LoginSpend(0, true), []);
    RunFrom(s, LoginFind(0, k, true), [LoginSpend(0, true)] + []);
    steps := [LoginFind(0, k, true)] + ([LoginSpend(0, true)] + []);
  }

  /** From a fresh start, a ticket with a use and a key can end with one use more than it was issued. */
  lemma ReaskExceedsSupply(s: State, k: Key, t: TicketId, started: Time) returns (steps: seq<Step>)
    requires Initial(s) && TicketFor(s, k) == Some(t) && CanSpend(s, t)
    ensures Run(s, steps) && Bounded(Exec(s, steps), t) && Exec(s, steps).uses[t].value == s.books.supply[t] + 1
  {
    var login := LogsIn(s, k, t);
    var first := AsksAndAbandons(Exec(s, login), 0, k, t, started);
    RunThen(s, login, first);
    InitiallyBalanced(s);
    UsesAreConserved(s, login + first);
    var again := ReaskAfterAgeOutMintsAUse(Exec(s, login + first), 0, k, t, started);
    RunThen(s, login + first, again);
    steps := login + first + again;
  }
}
