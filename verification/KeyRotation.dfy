/**
 Cluster nodes with different key rings bring the shared encryption key forward by
 compare-and-set, rewrite the stored secrets, and retire the previous key.

 A node's place in `backfill_credential_encryption` is its `Place`; each statement
 against the parameters row is one step. `past` is history: every key that was ever
 the cluster's current one, in order.
 */
module KeyRotation {
  import opened Prelude

  type Fingerprint = nat
  type Node = nat

  datatype Ring = Ring(primary: Option<Fingerprint>, retired: set<Fingerprint>) {
    predicate Contains(fp: Fingerprint) { primary == Some(fp) || fp in retired }
  }

  datatype Place =
    | Reading                             // about to read the parameters row
    | Swapping(seen: Option<Fingerprint>) // about to compare-and-set from `seen`
    | Synced(since: nat)                  // in sync since `past` had this length
    | Clearing(since: nat)                // everything rewritten, about to clear `retiring`
    | Finished

  type Rings = map<Node, Ring>

  datatype State = State(
    current: Option<Fingerprint>,
    retiring: Option<Fingerprint>,
    place: map<Node, Place>,
    past: seq<Fingerprint>)

  datatype Step =
    | Read(n: Node)
    | Swap(n: Node)
    | Rewrite(n: Node, clean: bool) // probe, straggler check and rewrite; `clean` if all of it went through
    | Clear(n: Node)
    | Abort(n: Node) // a statement failed
    | Restart(n: Node)

  function At(s: State, n: Node): Place {
    if n in s.place then s.place[n] else Reading
  }

  function Goto(s: State, n: Node, p: Place): State { s.(place := s.place[n := p]) }

  /** advance_key_state, up to the compare-and-set. */
  function Decide(ring: Ring, s: State): Place {
    if ring.primary.None? || s.current == ring.primary then
      (if ring.primary.None? then Finished else Synced(|s.past|))
    else if s.current.Some? && !ring.Contains(s.current.value) then Finished
    else Swapping(s.current)
  }

  predicate Enabled(rings: Rings, s: State, step: Step) {
    && step.n in rings
    && match step
       case Read(n) => At(s, n).Reading?
       case Swap(n) => At(s, n).Swapping? && rings[n].primary.Some?
       case Rewrite(n, _) => At(s, n).Synced?
       case Clear(n) => At(s, n).Clearing? && rings[n].primary.Some?
       case Abort(n) => At(s, n).Reading? || At(s, n).Swapping? || At(s, n).Clearing?
       case Restart(n) => At(s, n).Finished?
  }

  function Next(rings: Rings, s: State, step: Step): State
    requires Enabled(rings, s, step)
  {
    var n, ring := step.n, rings[step.n];
    match step
    case Read(_) => Goto(s, n, Decide(ring, s))
    case Swap(_) =>
      if s.current == At(s, n).seen then
        Goto(State(ring.primary, s.current, s.place, s.past + [ring.primary.value]), n, Synced(|s.past| + 1))
      else Goto(s, n, Reading)
    case Rewrite(_, clean) => Goto(s, n, if clean then Clearing(At(s, n).since) else Finished)
    case Clear(_) =>
      Goto(if s.current == ring.primary then s.(retiring := None) else s, n, Finished)
    case Abort(_) => Goto(s, n, Finished)
    case Restart(_) => Goto(s, n, Reading)
  }

  predicate Run(rings: Rings, s: State, steps: seq<Step>)
    decreases |steps|
  {
    steps == [] || (Enabled(rings, s, steps[0]) && Run(rings, Next(rings, s, steps[0]), steps[1..]))
  }

  function Exec(rings: Rings, s: State, steps: seq<Step>): State
    requires Run(rings, s, steps)
    decreases |steps|
  {
    if steps == [] then s else Exec(rings, Next(rings, s, steps[0]), steps[1..])
  }

  const Fresh := State(None, None, map[], [])

  // The graph of key replacements the rings allow

  /** Some node replaces `older` by `newer`: it retired the one and encrypts with the other. */
  ghost predicate Replaces(rings: Rings, newer: Fingerprint, older: Fingerprint) {
    newer != older && exists n :: n in rings && rings[n].primary == Some(newer) && older in rings[n].retired
  }

  ghost predicate Chain(rings: Rings, keys: seq<Fingerprint>) {
    forall i :: 0 < i < |keys| ==> Replaces(rings, keys[i], keys[i - 1])
  }

  ghost predicate Acyclic(rings: Rings) {
    forall keys: seq<Fingerprint> :: Chain(rings, keys) && |keys| >= 2 ==> keys[0] != keys[|keys| - 1]
  }

  predicate NoRepeats(keys: seq<Fingerprint>) {
    forall i, j :: 0 <= i < j < |keys| ==> keys[i] != keys[j]
  }

  /** What every reachable state keeps. */
  ghost predicate Inv(rings: Rings, s: State) {
    && Chain(rings, s.past)
    && s.current == (if s.past == [] then None else Some(s.past[|s.past| - 1]))
    && (s.retiring.Some? ==> |s.past| >= 2 && s.retiring.value == s.past[|s.past| - 2])
    && forall n :: n in s.place ==> n in rings && PlaceOk(rings[n], s, s.place[n])
  }

  ghost predicate PlaceOk(ring: Ring, s: State, p: Place) {
    match p
    case Swapping(seen) => ring.primary.Some? && seen != ring.primary && (seen.Some? ==> seen.value in ring.retired)
    case Synced(since) => Held(ring, s, since)
    case Clearing(since) => Held(ring, s, since)
    case _ => true
  }

  /** The node's primary was the cluster's key when `past` had length `since`. */
  predicate Held(ring: Ring, s: State, since: nat) {
    1 <= since <= |s.past| && ring.primary == Some(s.past[since - 1])
  }

  lemma StepInv(rings: Rings, s: State, step: Step)
    requires Inv(rings, s) && Enabled(rings, s, step)
    ensures Inv(rings, Next(rings, s, step))
    ensures s.past <= Next(rings, s, step).past
  {
    var s' := Next(rings, s, step);
    if step.Swap? && s.current == At(s, step.n).seen {
      assert PlaceOk(rings[step.n], s, s.place[step.n]);
      forall i | 0 < i < |s'.past| ensures Replaces(rings, s'.past[i], s'.past[i - 1]) {}
    }
    forall n | n in s'.place ensures n in rings && PlaceOk(rings[n], s', s'.place[n]) {
      if n != step.n { assert PlaceOk(rings[n], s, s.place[n]); }
      else { assert n in s.place ==> PlaceOk(rings[n], s, s.place[n]); }
    }
  }

  lemma {:induction false} RunInv(rings: Rings, s: State, steps: seq<Step>)
    requires Inv(rings, s) && Run(rings, s, steps)
    ensures Inv(rings, Exec(rings, s, steps)) && s.past <= Exec(rings, s, steps).past
    decreases |steps|
  {
    if steps != [] {
      StepInv(rings, s, steps[0]);
      RunInv(rings, Next(rings, s, steps[0]), steps[1..]);
    }
  }

  /** A node that does not hold the cluster's key leaves the parameters row alone. */
  lemma OnlyHoldersWrite(rings: Rings, s: State, step: Step)
    requires Inv(rings, s) && Enabled(rings, s, step)
    ensures var s' := Next(rings, s, step);
            (s'.current, s'.retiring) != (s.current, s.retiring) && s.current.Some? ==> rings[step.n].Contains(s.current.value)
    ensures Next(rings, s, step).current != s.current ==> step.Swap? && Next(rings, s, step).retiring == s.current
  {
    if step.Swap? { assert PlaceOk(rings[step.n], s, s.place[step.n]); }
  }

  // No key comes back exactly when no chain of replacements closes

  lemma ChainsHaveNoRepeats(rings: Rings, keys: seq<Fingerprint>)
    requires Acyclic(rings) && Chain(rings, keys)
    ensures NoRepeats(keys)
  {
    forall i, j | 0 <= i < j < |keys| ensures keys[i] != keys[j] {
      var part := keys[i..j + 1];
      forall k | 0 < k < |part| ensures Replaces(rings, part[k], part[k - 1]) {
        assert Replaces(rings, keys[i + k], keys[i + k - 1]);
      }
      assert Chain(rings, part);
    }
  }

  lemma RunFrom(rings: Rings, s: State, step: Step, rest: seq<Step>)
    requires Enabled(rings, s, step) && Run(rings, Next(rings, s, step), rest)
    ensures Run(rings, s, [step] + rest) && Exec(rings, s, [step] + rest) == Exec(rings, Next(rings, s, step), rest)
  {
    assert ([step] + rest)[1..] == rest;
  }

  ghost predicate AllReading(s: State) { forall n :: n in s.place ==> s.place[n].Reading? }

  /** One node, holding the cluster's key as a retired one, moves it to its own and is ready to go again. */
  lemma Rotates(rings: Rings, s: State, n: Node) returns (steps: seq<Step>)
    requires Inv(rings, s) && AllReading(s) && n in rings && rings[n].primary.Some?
    requires s.current != rings[n].primary && (s.current.Some? ==> s.current.value in rings[n].retired)
    ensures Run(rings, s, steps) && AllReading(Exec(rings, s, steps))
    ensures Exec(rings, s, steps).past == s.past + [rings[n].primary.value]
  {
    var s1 := Next(rings, s, Read(n));
    var s2 := Next(rings, s1, Swap(n));
    var s3 := Next(rings, s2, Rewrite(n, false));
    RunFrom(rings, s3, Restart(n), []);
    RunFrom(rings, s2, Rewrite(n, false), [Restart(n)] + []);
    RunFrom(rings, s1, Swap(n), [Rewrite(n, false)] + ([Restart(n)] + []));
    RunFrom(rings, s, Read(n), [Swap(n)] + ([Rewrite(n, false)] + ([Restart(n)] + [])));
    steps := [Read(n)] + ([Swap(n)] + ([Rewrite(n, false)] + ([Restart(n)] + [])));
  }

  lemma {:induction false} RunThen(rings: Rings, s: State, first: seq<Step>, second: seq<Step>)
    requires Run(rings, s, first) && Run(rings, Exec(rings, s, first), second)
    ensures Run(rings, s, first + second)
    ensures Exec(rings, s, first + second) == Exec(rings, Exec(rings, s, first), second)
    decreases |first|
  {
    if first == [] {
      assert first + second == second;
    } else {
      assert (first + second)[1..] == first[1..] + second;
      RunThen(rings, Next(rings, s, first[0]), first[1..], second);
    }
  }

  /** Every chain of replacements is walked by some run. */
  lemma {:induction false} ChainIsWalked(rings: Rings, keys: seq<Fingerprint>) returns (steps: seq<Step>)
    requires Chain(rings, keys) && (keys != [] ==> exists n :: n in rings && rings[n].primary == Some(keys[0]))
    ensures Run(rings, Fresh, steps) && Exec(rings, Fresh, steps).past == keys && AllReading(Exec(rings, Fresh, steps))
  {
    if keys == [] {
      steps := [];
    } else {
      var shorter := keys[..|keys| - 1];
      assert Chain(rings, shorter) by {
        forall i | 0 < i < |shorter| ensures Replaces(rings, shorter[i], shorter[i - 1]) {
          assert Replaces(rings, keys[i], keys[i - 1]);
        }
      }
      var before := ChainIsWalked(rings, shorter);
      var s := Exec(rings, Fresh, before);
      RunInv(rings, Fresh, before);
      var last := keys[|keys| - 1];
      assert |keys| >= 2 ==> Replaces(rings, last, keys[|keys| - 2]);
      var n :| n in rings && rings[n].primary == Some(last) && (|keys| >= 2 ==> keys[|keys| - 2] in rings[n].retired);
      var turn := Rotates(rings, s, n);
      RunThen(rings, Fresh, before, turn);
      steps := before + turn;
      assert keys == shorter + [last];
    }
  }

  /** However nodes race, the cluster's key never returns to an earlier one: exactly when replacements form no cycle. */
  lemma KeysNeverComeBackIffAcyclic(rings: Rings)
    ensures Acyclic(rings) <==> forall steps :: Run(rings, Fresh, steps) ==> NoRepeats(Exec(rings, Fresh, steps).past)
  {
    if Acyclic(rings) {
      forall steps | Run(rings, Fresh, steps) ensures NoRepeats(Exec(rings, Fresh, steps).past) {
        RunInv(rings, Fresh, steps);
        ChainsHaveNoRepeats(rings, Exec(rings, Fresh, steps).past);
      }
    } else {
      var keys: seq<Fingerprint> :| Chain(rings, keys) && |keys| >= 2 && keys[0] == keys[|keys| - 1];
      assert Replaces(rings, keys[|keys| - 1], keys[|keys| - 2]);
      var steps := ChainIsWalked(rings, keys);
      assert !NoRepeats(Exec(rings, Fresh, steps).past);
    }
  }

  /** The operator's rule: every retired key is older than the primary beside it. */
  ghost predicate RetiredAreOlder(rings: Rings, age: Fingerprint -> nat) {
    forall n, older :: n in rings && rings[n].primary.Some? && older in rings[n].retired ==> age(older) < age(rings[n].primary.value)
  }

  lemma {:induction false} ChainsAdvance(rings: Rings, age: Fingerprint -> nat, keys: seq<Fingerprint>)
    requires RetiredAreOlder(rings, age) && Chain(rings, keys) && keys != []
    ensures forall i :: 0 < i < |keys| ==> age(keys[i - 1]) < age(keys[i])
    ensures |keys| >= 2 ==> age(keys[0]) < age(keys[|keys| - 1])
  {
    forall i | 0 < i < |keys| ensures age(keys[i - 1]) < age(keys[i]) {
      assert Replaces(rings, keys[i], keys[i - 1]);
    }
    if |keys| >= 2 {
      var shorter := keys[..|keys| - 1];
      forall i | 0 < i < |shorter| ensures Replaces(rings, shorter[i], shorter[i - 1]) {
        assert Replaces(rings, keys[i], keys[i - 1]);
      }
      ChainsAdvance(rings, age, shorter);
    }
  }

  /** Under the operator's rule every key the cluster moves to is newer than all before it. */
  lemma KeyOnlyMovesForward(rings: Rings, age: Fingerprint -> nat, steps: seq<Step>)
    requires RetiredAreOlder(rings, age) && Run(rings, Fresh, steps)
    ensures var past := Exec(rings, Fresh, steps).past;
            forall i :: 0 < i < |past| ==> age(past[i - 1]) < age(past[i])
    ensures Acyclic(rings)
  {
    forall keys: seq<Fingerprint> | Chain(rings, keys) && |keys| >= 2 ensures keys[0] != keys[|keys| - 1] {
      ChainsAdvance(rings, age, keys);
    }
    RunInv(rings, Fresh, steps);
    if Exec(rings, Fresh, steps).past != [] {
      ChainsAdvance(rings, age, Exec(rings, Fresh, steps).past);
    }
  }

  /**
   A node that finished its rewrite empties `retiring` exactly if no rotation happened since it
   synced, or its key has come back since; and where replacements form no cycle, no key comes back.
   */
  lemma ClearsOnlyItsOwnRotation(rings: Rings, s: State, n: Node)
    requires Inv(rings, s) && Enabled(rings, s, Clear(n))
    ensures var s', since := Next(rings, s, Clear(n)), At(s, n).since;
            && s'.current == s.current && 1 <= since <= |s.past|
            && s'.retiring == (if since == |s.past| || s.past[|s.past| - 1] == s.past[since - 1] then None else s.retiring)
            && (Acyclic(rings) && since < |s.past| ==> s.past[|s.past| - 1] != s.past[since - 1])
  {
    assert PlaceOk(rings[n], s, s.place[n]);
    if Acyclic(rings) {
      ChainsHaveNoRepeats(rings, s.past);
    }
  }

  /** `s'` is later in some run: the cluster's keys so far are an initial part of its own. */
  ghost predicate Later(rings: Rings, s: State, s': State) {
    Inv(rings, s') && s.past <= s'.past
  }

  /** A changed key is a newer one. */
  lemma ChangedMeansNewer(rings: Rings, age: Fingerprint -> nat, s: State, s': State)
    requires RetiredAreOlder(rings, age) && Inv(rings, s) && Later(rings, s, s') && s'.current != s.current
    ensures s'.current.Some? && (s.current.Some? ==> age(s.current.value) < age(s'.current.value))
  {
    assert s'.past[..|s.past|] == s.past;
    if s.current.Some? {
      var keys := s'.past[|s.past| - 1..];
      assert keys[0] == s.current.value && keys[|keys| - 1] == s'.current.value;
      forall i | 0 < i < |keys| ensures Replaces(rings, keys[i], keys[i - 1]) {
        assert Replaces(rings, s'.past[|s.past| - 1 + i], s'.past[|s.past| - 2 + i]);
      }
      ChainsAdvance(rings, age, keys);
    }
  }

  /** What a round can end in: in sync, unable to help with the keys it has, or a lost race. */
  ghost predicate Concluded(ring: Ring, s: State, position: Place, seen: Option<Fingerprint>) {
    match position
    case Synced(since) => Held(ring, s, since)
    case Finished => ring.primary.None? || (seen.Some? && !ring.Contains(seen.value) && seen.value in s.past)
    case Reading => true
    case _ => false
  }

  ghost predicate Others(rings: Rings, s: State, s': State, me: Node) {
    exists steps: seq<Step> :: Run(rings, s, steps) && Exec(rings, s, steps) == s' && forall i :: 0 <= i < |steps| ==> steps[i].n != me
  }

  lemma {:induction false} OthersLeave(rings: Rings, s: State, steps: seq<Step>, me: Node)
    requires Run(rings, s, steps) && forall i :: 0 <= i < |steps| ==> steps[i].n != me
    ensures At(Exec(rings, s, steps), me) == At(s, me)
    decreases |steps|
  {
    if steps != [] {
      assert steps[0].n != me;
      OthersLeave(rings, Next(rings, s, steps[0]), steps[1..], me);
    }
  }

  class Parameters {
    var st: State
    const rings: Rings

    constructor (rings: Rings)
      ensures this.rings == rings && st == Fresh && Inv(rings, st)
    {
      this.rings, st := rings, Fresh;
    }

    /** While `me` waits for the database, other nodes run any number of their statements. */
    method Interfere(me: Node)
      modifies this
      ensures Others(rings, old(st), st, me)
    {
      assert Run(rings, st, []) && Exec(rings, st, []) == st;
    }

    method Wait(me: Node)
      requires Inv(rings, st)
      modifies this
      ensures Later(rings, old(st), st) && At(st, me) == old(At(st, me))
    {
      Interfere(me);
      ghost var steps: seq<Step> :| Run(rings, old(st), steps) && Exec(rings, old(st), steps) == st && forall i :: 0 <= i < |steps| ==> steps[i].n != me;
      RunInv(rings, old(st), steps);
      OthersLeave(rings, old(st), steps, me);
    }

    method Do(step: Step)
      requires Inv(rings, st) && Enabled(rings, st, step)
      modifies this
      ensures st == Next(rings, old(st), step) && Later(rings, old(st), st)
    {
      StepInv(rings, st, step);
      st := Next(rings, st, step);
    }

    /** The compare-and-set of a round that read `seen`. */
    method TrySwap(me: Node, ghost age: Fingerprint -> nat, ghost seen: Option<Fingerprint>) returns (ok: bool, position: Place)
      requires Inv(rings, st) && me in rings && RetiredAreOlder(rings, age) && At(st, me) == Swapping(seen) && st.current == seen
      modifies this
      ensures Later(rings, old(st), st) && At(st, me) == position
      ensures if ok then Concluded(rings[me], st, position, seen) else position.Finished?
      ensures position.Synced? ==> position.since >= |old(st).past|
      ensures position.Reading? ==>
                && rings[me].primary.Some? && st.current.Some?
                && (seen.Some? ==> age(seen.value) < age(rings[me].primary.value) && age(seen.value) < age(st.current.value))
    {
      assert PlaceOk(rings[me], st, At(st, me));
      Wait(me);
      if st.current != seen { ChangedMeansNewer(rings, age, old(st), st); }
      ok := *;
      if ok {
        Do(Swap(me));
      } else {
        Do(Abort(me));
      }
      position := At(st, me);
    }

    /** One round of advance_key_state: read, decide, compare-and-set; `Reading` means the last one lost. */
    method Round(me: Node, ghost age: Fingerprint -> nat) returns (ok: bool, position: Place, ghost seen: Option<Fingerprint>)
      requires Inv(rings, st) && me in rings && RetiredAreOlder(rings, age) && At(st, me).Reading?
      modifies this
      ensures Later(rings, old(st), st) && At(st, me) == position
      ensures if ok then Concluded(rings[me], st, position, seen) else position.Finished?
      ensures old(st).current.Some? ==> seen.Some? && age(old(st).current.value) <= age(seen.value)
      ensures position.Synced? ==> position.since >= |old(st).past|
      ensures position.Reading? ==>
                && rings[me].primary.Some? && st.current.Some?
                && (seen.Some? ==> age(seen.value) < age(rings[me].primary.value) && age(seen.value) < age(st.current.value))
    {
      Wait(me);
      if st.current != old(st).current { ChangedMeansNewer(rings, age, old(st), st); }
      seen := st.current;
      ok := *;
      if !ok {
        Do(Abort(me));
        return ok, Finished, seen;
      }
      Do(Read(me));
      position := At(st, me);
      if position.Swapping? {
        ok, position := TrySwap(me, age, seen);
      }
    }

    /**
     advance_key_state: rounds until one concludes or a statement fails. Each lost round means
     another node moved the cluster to a newer key, so the rounds run out.
     */
    method AdvanceKeyState(me: Node, ghost age: Fingerprint -> nat) returns (ok: bool, position: Place, ghost seen: Option<Fingerprint>)
      requires Inv(rings, st) && me in rings && RetiredAreOlder(rings, age) && At(st, me).Reading?
      modifies this
      ensures Later(rings, old(st), st) && At(st, me) == position && !position.Reading?
      ensures if ok then Concluded(rings[me], st, position, seen) else position.Finished?
      ensures position.Synced? ==> position.since >= |old(st).past|
    {
      ghost var own := if rings[me].primary.Some? then age(rings[me].primary.value) else 0;
      ghost var rounds: int := own + 2;
      ok, position, seen := Round(me, age);
      while position.Reading?
        invariant Later(rings, old(st), st) && At(st, me) == position
        invariant if ok then Concluded(rings[me], st, position, seen) else position.Finished?
        invariant position.Synced? ==> position.since >= |old(st).past|
        invariant position.Reading? ==> st.current.Some? && rounds >= 0 && age(st.current.value) + rounds > own
        decreases rounds
      {
        ok, position, seen := Round(me, age);
        rounds := rounds - 1;
      }
    }
  }
}
