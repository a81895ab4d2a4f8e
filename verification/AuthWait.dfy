/**
 Waiting for an authentication to complete: the state broadcasts each change of its
 verdict, under its lock, into a ring that keeps the newest few; a waiter that falls
 behind is told so and looks at the state itself.
 */
module AuthWait {
  import opened Prelude

  const CAPACITY := 8

  type Waiter = nat

  datatype Verdict = Need(kinds: set<nat>) | Accepted | Rejected

  /** `from` is how many changes there had been at the call; `pos` the next one to receive. */
  datatype Reader =
    | Waiting(from: nat, pos: nat)
    | Rechecking(from: nat, pos: nat)
    | Returned(from: nat, verdict: Verdict, timedOut: bool)

  /** The first verdict, the changes since (each one broadcast), and the waiters. */
  datatype State = State(first: Verdict, sent: seq<Verdict>, readers: map<Waiter, Reader>)

  datatype Step = Change(verdict: Verdict) | Call(w: Waiter) | Receive(w: Waiter) | Recheck(w: Waiter) | TimeOut(w: Waiter)

  predicate Terminal(v: Verdict) {
    !v.Need?
  }

  /** The verdict in force after `i` changes. */
  function InForce(first: Verdict, sent: seq<Verdict>, i: nat): Verdict
    requires i <= |sent|
  {
    if i == 0 then first else sent[i - 1]
  }

  function Now(s: State): Verdict {
    InForce(s.first, s.sent, |s.sent|)
  }

  predicate Lagged(sent: seq<Verdict>, pos: nat) {
    pos + CAPACITY < |sent|
  }

  /** recv: the next message if it is still in the ring; otherwise the news that it is not. */
  function Received(sent: seq<Verdict>, r: Reader): Reader
    requires r.Waiting? && r.pos < |sent|
  {
    if Lagged(sent, r.pos) then Rechecking(r.from, |sent| - CAPACITY)
    else if Terminal(sent[r.pos]) then Returned(r.from, sent[r.pos], false)
    else Waiting(r.from, r.pos + 1)
  }

  function Rechecked(now: Verdict, r: Reader): Reader
    requires r.Rechecking?
  {
    if Terminal(now) then Returned(r.from, now, false) else Waiting(r.from, r.pos)
  }

  /** Checking and subscribing happen under one lock. */
  function Called(now: Verdict, n: nat): Reader {
    if Terminal(now) then Returned(n, now, false) else Waiting(n, n)
  }

  predicate Enabled(s: State, step: Step) {
    match step
    case Change(v) => v != Now(s)
    case Call(w) => w !in s.readers
    case Receive(w) => w in s.readers && s.readers[w].Waiting? && s.readers[w].pos < |s.sent|
    case Recheck(w) => w in s.readers && s.readers[w].Rechecking?
    case TimeOut(w) => w in s.readers && !s.readers[w].Returned?
  }

  function Next(s: State, step: Step): State
    requires Enabled(s, step)
  {
    match step
    case Change(v) => s.(sent := s.sent + [v])
    case Call(w) => s.(readers := s.readers[w := Called(Now(s), |s.sent|)])
    case Receive(w) => s.(readers := s.readers[w := Received(s.sent, s.readers[w])])
    case Recheck(w) => s.(readers := s.readers[w := Rechecked(Now(s), s.readers[w])])
    case TimeOut(w) => s.(readers := s.readers[w := Returned(s.readers[w].from, Rejected, true)])
  }

  ghost predicate Run(s: State, steps: seq<Step>)
    decreases |steps|
  {
    steps == [] || (Enabled(s, steps[0]) && Run(Next(s, steps[0]), steps[1..]))
  }

  ghost function Exec(s: State, steps: seq<Step>): State
    requires Run(s, steps)
    decreases |steps|
  {
    if steps == [] then s else Exec(Next(s, steps[0]), steps[1..])
  }

  // ----- What every run keeps -----

  /** The verdict was in force at some moment since the call. */
  ghost predicate InForceSince(first: Verdict, sent: seq<Verdict>, from: nat, v: Verdict) {
    exists i :: from <= i <= |sent| && InForce(first, sent, i) == v
  }

  ghost predicate ReaderOk(first: Verdict, sent: seq<Verdict>, r: Reader) {
    match r
    case Waiting(from, pos) => from <= pos <= |sent| && (pos == |sent| ==> !Terminal(InForce(first, sent, |sent|)))
    case Rechecking(from, pos) => from <= pos < |sent|
    case Returned(from, v, timedOut) => Terminal(v) && if timedOut then v == Rejected else InForceSince(first, sent, from, v)
  }

  ghost predicate Inv(s: State) {
    forall w :: w in s.readers ==> ReaderOk(s.first, s.sent, s.readers[w])
  }

  lemma ReaderStaysOk(first: Verdict, sent: seq<Verdict>, v: Verdict, r: Reader)
    requires ReaderOk(first, sent, r)
    ensures ReaderOk(first, sent + [v], r)
  {
    if r.Returned? && !r.timedOut {
      var i :| r.from <= i <= |sent| && InForce(first, sent, i) == r.verdict;
      assert InForce(first, sent + [v], i) == r.verdict;
    }
  }

  lemma ReceivedOk(first: Verdict, sent: seq<Verdict>, r: Reader)
    requires ReaderOk(first, sent, r) && r.Waiting? && r.pos < |sent|
    ensures ReaderOk(first, sent, Received(sent, r))
  {
    assert InForce(first, sent, r.pos + 1) == sent[r.pos];
  }

  lemma StepInv(s: State, step: Step)
    requires Enabled(s, step) && Inv(s)
    ensures Inv(Next(s, step))
  {
    match step {
      case Change(v) =>
        forall w | w in s.readers ensures ReaderOk(s.first, s.sent + [v], s.readers[w]) {
          ReaderStaysOk(s.first, s.sent, v, s.readers[w]);
        }
      case Receive(w) => ReceivedOk(s.first, s.sent, s.readers[w]);
      case _ => assert InForce(s.first, s.sent, |s.sent|) == Now(s);
    }
  }

  lemma {:induction false} RunInv(s: State, steps: seq<Step>)
    requires Inv(s) && Run(s, steps)
    ensures Inv(Exec(s, steps))
    decreases |steps|
  {
    if steps != [] {
      StepInv(s, steps[0]);
      RunInv(Next(s, steps[0]), steps[1..]);
    }
  }

  /**
   No wake-up is lost: while a terminal verdict is in force, a waiter that has not returned
   is looking at the state, or has that verdict ahead of it as the newest message of the ring.
   */
  lemma NoLostWakeUp(s: State, steps: seq<Step>, w: Waiter)
    requires s.readers == map[] && Run(s, steps) && w in Exec(s, steps).readers
    requires Terminal(Now(Exec(s, steps))) && !Exec(s, steps).readers[w].Returned?
    ensures var t := Exec(s, steps);
            t.readers[w].pos < |t.sent| && t.sent[|t.sent| - 1] == Now(t) && !Lagged(t.sent, |t.sent| - 1)
  {
    RunInv(s, steps);
  }

  /** A waiter answers Accepted only if the state was accepted at some moment since it was called. */
  lemma AcceptedMeansAccepted(s: State, steps: seq<Step>, w: Waiter)
    requires s.readers == map[] && Run(s, steps) && w in Exec(s, steps).readers
    requires Exec(s, steps).readers[w].Returned? && Exec(s, steps).readers[w].verdict == Accepted
    ensures InForceSince(s.first, Exec(s, steps).sent, Exec(s, steps).readers[w].from, Accepted)
  {
    RunInv(s, steps);
    FirstStays(s, steps);
  }

  lemma {:induction false} FirstStays(s: State, steps: seq<Step>)
    requires Run(s, steps)
    ensures Exec(s, steps).first == s.first
    decreases |steps|
  {
    if steps != [] {
      FirstStays(Next(s, steps[0]), steps[1..]);
    }
  }

  // ----- How soon it wakes -----

  /** The waiter's own next move. */
  function Moved(s: State, r: Reader): Reader
    requires r.Waiting? ==> r.pos < |s.sent|
  {
    match r
    case Waiting(_, _) => Received(s.sent, r)
    case Rechecking(_, _) => Rechecked(Now(s), r)
    case Returned(_, _, _) => r
  }

  /** After at most `n` moves, with no change of verdict in between, the waiter has returned. */
  ghost predicate ReturnsWithin(s: State, r: Reader, n: nat)
    decreases n
  {
    r.Returned? || (n > 0 && (r.Waiting? ==> r.pos < |s.sent|) && ReturnsWithin(s, Moved(s, r), n - 1))
  }

  lemma {:induction false} UnreadBoundsMoves(s: State, r: Reader, n: nat)
    requires Terminal(Now(s)) && ReaderOk(s.first, s.sent, r) && r.Waiting? && |s.sent| - r.pos <= n <= CAPACITY
    ensures ReturnsWithin(s, r, n)
    decreases n
  {
    ReceivedOk(s.first, s.sent, r);
    if Moved(s, r).Waiting? {
      UnreadBoundsMoves(s, Moved(s, r), n - 1);
    }
  }

  /** A waiter returns within as many moves as the ring has places. */
  lemma WakesWithinCapacity(s: State, steps: seq<Step>, w: Waiter)
    requires s.readers == map[] && Run(s, steps) && w in Exec(s, steps).readers && Terminal(Now(Exec(s, steps)))
    ensures ReturnsWithin(Exec(s, steps), Exec(s, steps).readers[w], CAPACITY)
  {
    RunInv(s, steps);
    var t := Exec(s, steps);
    var r := t.readers[w];
    if r.Waiting? && !Lagged(t.sent, r.pos) {
      UnreadBoundsMoves(t, r, CAPACITY);
    } else if r.Waiting? {
      assert ReturnsWithin(t, Moved(t, r), CAPACITY - 1) by {
        assert Moved(t, Moved(t, r)).Returned?;
      }
    }
  }

  /** Where terminal verdicts are final, the answer is the verdict in force. */
  lemma FinalVerdictIsCurrent(s: State, steps: seq<Step>, w: Waiter)
    requires s.readers == map[] && Run(s, steps) && w in Exec(s, steps).readers
    requires Exec(s, steps).readers[w].Returned? && !Exec(s, steps).readers[w].timedOut
    requires forall i :: 0 <= i < |Exec(s, steps).sent| ==> !Terminal(InForce(s.first, Exec(s, steps).sent, i))
    ensures Exec(s, steps).readers[w].verdict == Now(Exec(s, steps))
  {
    RunInv(s, steps);
    FirstStays(s, steps);
  }

  // ----- The call -----

  predicate By(step: Step, w: Waiter) {
    !step.Change? && step.w == w
  }

  ghost predicate Others(a: State, b: State, w: Waiter) {
    exists steps :: Run(a, steps) && Exec(a, steps) == b && forall i :: 0 <= i < |steps| ==> !By(steps[i], w)
  }

  lemma {:induction false} OthersLeave(a: State, steps: seq<Step>, w: Waiter)
    requires Run(a, steps) && forall i :: 0 <= i < |steps| ==> !By(steps[i], w)
    ensures w in Exec(a, steps).readers <==> w in a.readers
    ensures w in a.readers ==> Exec(a, steps).readers[w] == a.readers[w]
    decreases |steps|
  {
    if steps != [] {
      assert !By(steps[0], w);
      OthersLeave(Next(a, steps[0]), steps[1..], w);
    }
  }

  class AuthWaiter {
    var st: State
    const w: Waiter

    constructor (st: State, w: Waiter)
      requires Inv(st)
      ensures this.st == st && this.w == w
    {
      this.st, this.w := st, w;
    }

    method Interfere()
      modifies this
      ensures Others(old(st), st, w)
    {
      assert Run(st, []) && Exec(st, []) == st;
    }

    /** Until something happens, or nothing did for too long. */
    method Sleep()
      requires Inv(st)
      modifies this
      ensures Inv(st) && st.first == old(st).first && (w in st.readers <==> w in old(st).readers)
      ensures w in st.readers ==> st.readers[w] == old(st).readers[w]
    {
      Interfere();
      ghost var steps :| Run(old(st), steps) && Exec(old(st), steps) == st && forall i :: 0 <= i < |steps| ==> !By(steps[i], w);
      OthersLeave(old(st), steps, w);
      RunInv(old(st), steps);
      FirstStays(old(st), steps);
    }

    method Do(step: Step)
      requires Inv(st) && Enabled(st, step)
      modifies this
      ensures Inv(st) && st == Next(old(st), step)
    {
      StepInv(st, step);
      st := Next(st, step);
    }

    /** One turn of the receive loop. */
    method Receives()
      requires Inv(st) && w in st.readers && st.readers[w].Waiting? && st.readers[w].pos < |st.sent|
      modifies this
      ensures Inv(st) && w in st.readers && !st.readers[w].Rechecking? && st.first == old(st).first
      ensures st.readers[w].from == old(st).readers[w].from
    {
      Do(Receive(w));
      if st.readers[w].Rechecking? {
        Sleep();
        Do(Recheck(w));
      }
    }

    /** wait_for_auth_completion_within, for a timeout that falls after `patience` wake-ups at the latest. */
    method WaitForAuthCompletion(patience: nat) returns (v: Verdict)
      requires Inv(st) && w !in st.readers
      modifies this
      ensures Inv(st) && Terminal(v) && st.first == old(st).first
      ensures w in st.readers && st.readers[w].Returned? && st.readers[w].verdict == v && st.readers[w].from == |old(st).sent|
      ensures v == Accepted ==> InForceSince(st.first, st.sent, |old(st).sent|, Accepted)
    {
      Do(Call(w));
      var left := patience;
      while left > 0 && !st.readers[w].Returned?
        invariant Inv(st) && st.first == old(st).first
        invariant w in st.readers && !st.readers[w].Rechecking? && st.readers[w].from == |old(st).sent|
        decreases left
      {
        Sleep();
        if st.readers[w].pos < |st.sent| {
          Receives();
        }
        left := left - 1;
      }
      if !st.readers[w].Returned? {
        Do(TimeOut(w));
      }
      assert ReaderOk(st.first, st.sent, st.readers[w]);
      return st.readers[w].verdict;
    }
  }
}
