/**
 What every run of the session transactions keeps: the tree of user and target
 sessions, and that no session outlives its deleted ticket unnoticed.
 */
module SessionTree {
  import opened Prelude
  import opened Sessions

  // ----- The tree -----

  /** A target session is open exactly when its user session is. */
  ghost predicate Tree(users: Users, targets: Targets) {
    forall r :: r in targets ==> targets[r].parent in users && targets[r].ended == users[targets[r].parent].ended
  }

  /** A user session has one row per target. */
  ghost predicate Unique(targets: Targets) {
    forall q, r :: q in targets && r in targets && targets[q].parent == targets[r].parent && targets[q].target == targets[r].target
                   ==> q == r
  }

  lemma StepTree(s: State, step: Step)
    requires Enabled(s, step) && Tree(s.users, s.targets)
    ensures Tree(Next(s, step).users, Next(s, step).targets)
  {}

  /** Same rows, same places in the tree. */
  ghost predicate SameKeys(before: Targets, after: Targets) {
    after.Keys == before.Keys &&
    forall r :: r in before ==> after[r].parent == before[r].parent && after[r].target == before[r].target
  }

  lemma StepUnique(s: State, step: Step)
    requires Enabled(s, step) && Unique(s.targets)
    ensures Unique(Next(s, step).targets)
  {
    var targets := Next(s, step).targets;
    if !step.Open? {
      assert SameKeys(s.targets, targets);
    }
  }

  // ----- Closing -----

  ghost predicate KnownLocal(users: Users, l: Local) {
    && (forall sid :: sid in l.Held() ==> sid in users)
    && (l.Closing? ==> l.todo <= l.batch <= l.held)
    && (l.Reaping? ==> forall sid :: sid in l.todo ==> sid in users)
    && (l.Closing? ==> forall sid :: sid in l.batch - l.todo ==> !IsOpen(users, sid))
  }

  /** Every id waited for is a session's, and an attempt has ended what it is done with. */
  ghost predicate Known(s: State) {
    && (forall a :: a in s.pc ==> KnownLocal(s.users, s.pc[a]))
    && forall p, sid :: p in s.queue && sid in s.queue[p] ==> sid in s.users
  }

  lemma LocalStaysKnown(users: Users, after: Users, l: Local)
    requires KnownLocal(users, l)
    requires users.Keys <= after.Keys && forall sid :: sid in users && users[sid].ended ==> after[sid].ended
    ensures KnownLocal(after, l)
  {}

  /** Sessions are not forgotten, and do not come back. */
  lemma UsersAdvance(s: State, step: Step)
    requires Enabled(s, step)
    ensures s.users.Keys <= Next(s, step).users.Keys
    ensures forall sid :: sid in s.users && s.users[sid].ended ==> Next(s, step).users[sid].ended
  {}

  lemma StepKnownQueue(s: State, step: Step, p: Process, sid: SessionId)
    requires Enabled(s, step) && Known(s) && p in Next(s, step).queue && sid in Next(s, step).queue[p]
    ensures sid in s.users
  {
    if step.Fail? {
      assert KnownLocal(s.users, At(s, step.who));
    }
  }

  lemma StepKnownLocal(s: State, step: Step, a: Actor)
    requires Enabled(s, step) && Known(s) && Tree(s.users, s.targets) && a in Next(s, step).pc
    ensures KnownLocal(Next(s, step).users, Next(s, step).pc[a])
  {
    UsersAdvance(s, step);
    if a in s.pc {
      LocalStaysKnown(s.users, Next(s, step).users, s.pc[a]);
    }
  }

  lemma StepKnown(s: State, step: Step)
    requires Enabled(s, step) && Known(s) && Tree(s.users, s.targets)
    ensures Known(Next(s, step))
  {
    var t := Next(s, step);
    UsersAdvance(s, step);
    forall a | a in t.pc ensures KnownLocal(t.users, t.pc[a]) {
      StepKnownLocal(s, step, a);
    }
    forall p, sid | p in t.queue && sid in t.queue[p] ensures sid in t.users {
      StepKnownQueue(s, step, p, sid);
    }
  }

  // ----- Admission -----

  /** The ticket column remembers a row's ticket for as long as the ticket exists. */
  ghost predicate Recorded(targets: Targets, gone: set<TicketId>, via: map<RowId, TicketId>) {
    forall r :: r in via ==> r in targets && (via[r] in gone || targets[r].ticket == Some(via[r]))
  }

  /** Someone answers for the session: a deleter, a sweep, or a queue. */
  ghost predicate Watched(s: State, sid: SessionId) {
    || (exists a :: a in s.pc && sid in s.pc[a].Held())
    || (exists p :: p in s.queue && sid in s.queue[p])
  }

  ghost predicate Orphaned(s: State, r: RowId) {
    r in s.via && r in s.targets && s.via[r] in s.gone && IsOpen(s.users, s.targets[r].parent)
  }

  /** Each open session admitted by a deleted ticket is watched. */
  ghost predicate Noticed(s: State) {
    forall r :: Orphaned(s, r) ==> Watched(s, s.targets[r].parent)
  }

  lemma StepRecorded(s: State, step: Step)
    requires Enabled(s, step) && Recorded(s.targets, s.gone, s.via)
    ensures Recorded(Next(s, step).targets, Next(s, step).gone, Next(s, step).via)
  {}

  ghost predicate Inv(s: State) {
    && Tree(s.users, s.targets) && Unique(s.targets) && Known(s)
    && Recorded(s.targets, s.gone, s.via) && s.tickets !! s.gone && Noticed(s)
  }

  /** A watched session stays watched until it has ended. */
  lemma StaysWatched(s: State, step: Step, sid: SessionId)
    requires Enabled(s, step) && Known(s) && Watched(s, sid)
    ensures Watched(Next(s, step), sid) || !IsOpen(Next(s, step).users, sid)
  {
    var t := Next(s, step);
    if p :| p in s.queue && sid in s.queue[p] {
      if step.Take? && step.at == p {
        assert sid in t.pc[step.who].Held();
      } else {
        assert p in t.queue && sid in t.queue[p];
      }
    } else {
      var a :| a in s.pc && sid in s.pc[a].Held();
      HolderKeeps(s, step, a, sid);
    }
  }

  lemma HolderKeeps(s: State, step: Step, a: Actor, sid: SessionId)
    requires Enabled(s, step) && Known(s) && a in s.pc && sid in s.pc[a].Held()
    ensures Watched(Next(s, step), sid) || !IsOpen(Next(s, step).users, sid)
  {
    var t := Next(s, step);
    if t.pc[a] == s.pc[a] || (a in t.pc && sid in t.pc[a].Held()) {
      assert a in t.pc && sid in t.pc[a].Held();
    } else if step.Fail? {
      assert s.pc[a].home in t.queue && sid in t.queue[s.pc[a].home];
    }
  }

  /** A row orphaned by this very step was collected by it. */
  lemma NewOrphanIsHeld(s: State, step: Step, r: RowId)
    requires Enabled(s, step) && Inv(s) && Orphaned(Next(s, step), r) && !Orphaned(s, r)
    ensures step.Delete? && s.targets[r].parent in Admitted(s.targets, step.tickets * s.tickets)
    ensures Next(s, step).targets[r].parent == s.targets[r].parent
  {
    assert r in s.via ==> r in s.targets && (s.via[r] in s.gone || s.targets[r].ticket == Some(s.via[r]));
    if step.Delete? {
      assert AdmittedBy(s.targets[r], step.tickets * s.tickets);
    }
  }

  lemma StepNoticed(s: State, step: Step)
    requires Enabled(s, step) && Inv(s)
    ensures Noticed(Next(s, step))
  {
    var t := Next(s, step);
    forall r | Orphaned(t, r) ensures Watched(t, t.targets[r].parent) {
      if Orphaned(s, r) {
        assert t.targets[r].parent == s.targets[r].parent;
        StaysWatched(s, step, s.targets[r].parent);
      } else {
        NewOrphanIsHeld(s, step, r);
        assert t.targets[r].parent in t.pc[step.who].Held();
      }
    }
  }

  lemma StepInv(s: State, step: Step)
    requires Enabled(s, step) && Inv(s)
    ensures Inv(Next(s, step))
  {
    StepTree(s, step);
    StepUnique(s, step);
    StepKnown(s, step);
    StepRecorded(s, step);
    StepNoticed(s, step);
  }

  lemma {:induction false} RunInv(s: State, steps: seq<Step>)
    requires Inv(s) && Run(s, steps)
    ensures Inv(Exec(s, steps))
    decreases |steps|
  {
    if steps != [] {
      StepInv(s, steps[0]);
      RunInv(Next(s, steps[0]), steps[1..]);
    }
  }

  /** The tree invariant, in every reachable state. */
  lemma SessionTreeHolds(s: State, steps: seq<Step>)
    requires Initial(s) && Run(s, steps)
    ensures Tree(Exec(s, steps).users, Exec(s, steps).targets) && Unique(Exec(s, steps).targets)
  {
    RunInv(s, steps);
  }

  /** No session outlives its deleted ticket unnoticed, in any interleaving and with any failures. */
  lemma NoSessionOutlivesItsTicket(s: State, steps: seq<Step>, r: RowId)
    requires Initial(s) && Run(s, steps) && r in Exec(s, steps).via && Exec(s, steps).via[r] in Exec(s, steps).gone
    ensures r in Exec(s, steps).targets
    ensures IsOpen(Exec(s, steps).users, Exec(s, steps).targets[r].parent)
            ==> Watched(Exec(s, steps), Exec(s, steps).targets[r].parent)
  {
    RunInv(s, steps);
    assert Orphaned(Exec(s, steps), r) || !IsOpen(Exec(s, steps).users, Exec(s, steps).targets[r].parent);
  }

  /** With nothing in flight and nothing queued, every session admitted by a deleted ticket has ended. */
  lemma QuietMeansClosed(s: State, steps: seq<Step>, r: RowId)
    requires Initial(s) && Run(s, steps)
    requires forall a :: a in Exec(s, steps).pc ==> Exec(s, steps).pc[a].Held() == {}
    requires forall p :: p in Exec(s, steps).queue ==> Exec(s, steps).queue[p] == {}
    requires r in Exec(s, steps).via && Exec(s, steps).via[r] in Exec(s, steps).gone
    ensures r in Exec(s, steps).targets && Exec(s, steps).targets[r].ended
  {
    NoSessionOutlivesItsTicket(s, steps, r);
    RunInv(s, steps);
  }

  /** A session is registered under a ticket only while the ticket exists. */
  lemma DeletedTicketsAdmitNobody(s: State, steps: seq<Step>, step: Step)
    requires Initial(s) && Run(s, steps) && Enabled(Exec(s, steps), step) && step.Open?
    requires step.admission.Some? && step.admission.value in Exec(s, steps).gone
    ensures Next(Exec(s, steps), step) == Exec(s, steps)
  {
    RunInv(s, steps);
  }

  /** A row found instead of inserted is the only one for the pair, and open. */
  lemma ExistingRowIsOpen(s: State, steps: seq<Step>, step: Step, r: RowId)
    requires Initial(s) && Run(s, steps) && step.Open?
    requires OpenAllowed(Exec(s, steps), step.sid, step.admission, step.unexpired)
    requires r in Exec(s, steps).targets
    requires Exec(s, steps).targets[r].parent == step.sid && Exec(s, steps).targets[r].target == step.target
    ensures !Exec(s, steps).targets[r].ended
    ensures forall q :: q in Exec(s, steps).targets && q != r ==>
              Exec(s, steps).targets[q].parent != step.sid || Exec(s, steps).targets[q].target != step.target
  {
    RunInv(s, steps);
  }

  /** The safety net of the reaper never has anything to do. */
  lemma EndChildrenFindsNothing(s: State, steps: seq<Step>)
    requires Initial(s) && Run(s, steps)
    ensures Next(Exec(s, steps), EndChildren) == Exec(s, steps)
  {
    RunInv(s, steps);
    var t := Exec(s, steps);
    assert Swept(t.users, t.targets) == t.targets;
  }

  /** What has ended stays ended. */
  lemma {:induction false} EndedForGood(s: State, steps: seq<Step>, sid: SessionId)
    requires Run(s, steps) && sid in s.users && s.users[sid].ended
    ensures sid in Exec(s, steps).users && Exec(s, steps).users[sid].ended
    decreases |steps|
  {
    if steps != [] {
      UsersAdvance(s, steps[0]);
      EndedForGood(Next(s, steps[0]), steps[1..], sid);
    }
  }

  // ----- A second ticket -----

  /**
   A session let in to a target under a ticket is collected when that ticket is deleted
   exactly if it had no row for the target yet, or reached some target under the ticket already.
   */
  lemma CollectedIffRecorded(s: State, open: Step, a: Actor, p: Process)
    requires Inv(s) && open.Open? && Enabled(s, open) && open.admission.Some?
    requires OpenAllowed(s, open.sid, open.admission, open.unexpired)
    requires Free(At(s, a))
    ensures Enabled(Next(s, open), Delete(a, p, {open.admission.value}))
    ensures open.sid in Next(Next(s, open), Delete(a, p, {open.admission.value})).pc[a].Held() <==>
            || !HasRow(s.targets, open.sid, open.target)
            || exists r :: r in s.targets && s.targets[r].parent == open.sid && s.targets[r].ticket == open.admission
  {
    var ts := {open.admission.value};
    var t := Next(s, open);
    assert ts * t.tickets == ts;
    if !HasRow(s.targets, open.sid, open.target) {
      assert AdmittedBy(t.targets[open.row], ts);
    } else {
      assert t.targets == s.targets;
      if r :| r in s.targets && s.targets[r].parent == open.sid && s.targets[r].ticket == open.admission {
        assert AdmittedBy(s.targets[r], ts);
      }
    }
  }

  lemma RunFrom(s: State, step: Step, rest: seq<Step>)
    requires Enabled(s, step) && Run(Next(s, step), rest)
    ensures Run(s, [step] + rest) && Exec(s, [step] + rest) == Exec(Next(s, step), rest)
  {
    assert ([step] + rest)[1..] == rest;
  }

  /** Session 0 reaches target 5 under ticket 1 and then under ticket 2; deleting ticket 2 leaves it open and unwatched. */
  lemma SecondTicketIsForgotten(s: State)
    requires Initial(s)
    ensures exists before, after: seq<Step> ::
              && Run(s, before) && Run(Exec(s, before), after)
              && OpenAllowed(Exec(s, before), 0, Some(2), true)
              && after == [Open(11, 0, 5, Some(2), true), Delete(0, 0, {2})]
              && 2 in Exec(Exec(s, before), after).gone
              && IsOpen(Exec(Exec(s, before), after).users, 0)
              && !Watched(Exec(Exec(s, before), after), 0)
  {
    var s1 := Next(s, Register(0, None));
    var s2 := Next(s1, Issue(1));
    var s3 := Next(s2, Issue(2));
    var s4 := Next(s3, Open(10, 0, 5, Some(1), true));
    RunFrom(s3, Open(10, 0, 5, Some(1), true), []);
    RunFrom(s2, Issue(2), [Open(10, 0, 5, Some(1), true)]);
    RunFrom(s1, Issue(1), [Issue(2)] + [Open(10, 0, 5, Some(1), true)]);
    RunFrom(s, Register(0, None), [Issue(1)] + ([Issue(2)] + [Open(10, 0, 5, Some(1), true)]));
    var before := [Register(0, None)] + ([Issue(1)] + ([Issue(2)] + [Open(10, 0, 5, Some(1), true)]));
    assert Exec(s, before) == s4;
    assert 10 in s4.targets && s4.targets[10] == TargetSession(0, 5, false, Some(1));
    JoinThenDelete(s4);
    var after := [Open(11, 0, 5, Some(2), true)] + [Delete(0, 0, {2})];
    assert after == [Open(11, 0, 5, Some(2), true), Delete(0, 0, {2})];
  }

  lemma JoinThenDelete(s: State)
    requires s.targets == map[10 := TargetSession(0, 5, false, Some(1))]
    requires s.users == map[0 := UserSession(false, None)]
    requires s.tickets == {1, 2} && s.pc == map[] && s.queue == map[] && 11 !in s.via
    ensures Run(s, [Open(11, 0, 5, Some(2), true)] + [Delete(0, 0, {2})])
    ensures OpenAllowed(s, 0, Some(2), true)
    ensures 2 in Exec(s, [Open(11, 0, 5, Some(2), true)] + [Delete(0, 0, {2})]).gone
    ensures IsOpen(Exec(s, [Open(11, 0, 5, Some(2), true)] + [Delete(0, 0, {2})]).users, 0)
    ensures !Watched(Exec(s, [Open(11, 0, 5, Some(2), true)] + [Delete(0, 0, {2})]), 0)
  {
    assert s.targets[10].parent == 0 && HasRow(s.targets, 0, 5);
    assert Next(s, Open(11, 0, 5, Some(2), true)) == s;
    var t := Next(s, Delete(0, 0, {2}));
    assert {2} * s.tickets == {2};
    assert Admitted(s.targets, {2}) == {};
    RunFrom(s, Delete(0, 0, {2}), []);
    RunFrom(s, Open(11, 0, 5, Some(2), true), [Delete(0, 0, {2})]);
  }
}
