/**
 Several nodes' backfills at once, row by row: each probes the stored secrets, waits until
 every node that is up has its key, rewrites what it loaded, and then gives the old key up.

 The key state is that of `KeyRotation`. Of a stored secret only the key it is sealed under
 matters here; nobody else writes secrets meanwhile.
 */
module ClusterBackfill {
  import opened Prelude
  import KR = KeyRotation

  type Fingerprint = KR.Fingerprint
  type Node = KR.Node
  type Rings = KR.Rings

  /** The keys the row's secrets are sealed under; `None` is plaintext. */
  datatype Row = Row(readable: bool, seals: seq<Option<Fingerprint>>)

  /** The ring opens every secret of the row; an unreadable row is skipped. */
  predicate OpensTo(row: Row, ring: KR.Ring) {
    row.readable ==> forall i :: 0 <= i < |row.seals| && row.seals[i].Some? ==> ring.Contains(row.seals[i].value)
  }

  /** The key opens every secret of the row. */
  predicate Under(row: Row, key: Fingerprint) {
    row.readable ==> forall i :: 0 <= i < |row.seals| && row.seals[i].Some? ==> row.seals[i].value == key
  }

  /** reencrypt_all: all secrets under the primary, or the row is left. */
  function Resealed(row: Row, ring: KR.Ring): (after: Row)
    requires ring.primary.Some?
    ensures after.readable == row.readable && (OpensTo(row, ring) ==> Under(after, ring.primary.value))
  {
    if row.readable && OpensTo(row, ring) then row.(seals := seq(|row.seals|, i => ring.primary)) else row
  }

  /** How far a node's backfill is: probing, or past the straggler check and rewriting; `clean` if nothing was undecryptable. */
  datatype Work =
    | Probing(next: nat, clean: bool)
    | Rewriting(copies: map<nat, Row>, done: set<nat>, clean: bool)

  datatype State = State(keys: KR.State, rows: seq<Row>, up: set<Node>, work: map<Node, Work>)

  datatype Step =
    | Join(n: Node)
    | Leave(n: Node)
    | Key(step: KR.Step)     // read, swap, clear, fail, start again
    | Probe(n: Node)
    | Check(n: Node)
    | Load(n: Node, r: nat)
    | Write(n: Node, r: nat)
    | Finish(n: Node)
    | GiveUp(n: Node)        // stragglers, or a statement failed

  function PlaceOf(s: State, n: Node): KR.Place {
    KR.At(s.keys, n)
  }

  function WorkOf(s: State, n: Node): Work {
    if n in s.work then s.work[n] else Probing(0, true)
  }

  /** The node is busy with its secrets. */
  predicate At(rings: Rings, s: State, n: Node) {
    n in rings && n in s.up && PlaceOf(s, n).Synced? && rings[n].primary.Some?
  }

  predicate Enabled(rings: Rings, s: State, step: Step) {
    match step
    // A process that left took its backfill with it.
    case Join(n) => n in rings && n !in s.up && (PlaceOf(s, n).Reading? || PlaceOf(s, n).Finished?)
    case Leave(n) => n in rings && n in s.up
    case Key(k) => k.n in s.up && !k.Rewrite? && KR.Enabled(rings, s.keys, k)
    case Probe(n) => At(rings, s, n) && WorkOf(s, n).Probing? && WorkOf(s, n).next < |s.rows|
    case Check(n) =>
      && At(rings, s, n) && WorkOf(s, n).Probing? && WorkOf(s, n).next == |s.rows|
      && forall m :: m in s.up && m in rings ==> rings[m].primary == rings[n].primary
    case Load(n, r) => At(rings, s, n) && WorkOf(s, n).Rewriting? && r < |s.rows| && r !in WorkOf(s, n).copies
    case Write(n, r) => At(rings, s, n) && WorkOf(s, n).Rewriting? && r < |s.rows| && r in WorkOf(s, n).copies && r !in WorkOf(s, n).done
    case Finish(n) => At(rings, s, n) && WorkOf(s, n).Rewriting? && forall r :: 0 <= r < |s.rows| ==> r in WorkOf(s, n).done
    case GiveUp(n) => At(rings, s, n)
  }

  /** What the step is to the key state, if anything. */
  function KeyStep(rings: Rings, s: State, step: Step): Option<KR.Step>
    requires Enabled(rings, s, step)
  {
    match step
    case Join(n) => if PlaceOf(s, n).Finished? then Some(KR.Restart(n)) else None
    case Leave(n) =>
      match PlaceOf(s, n) {
        case Synced(_) => Some(KR.Rewrite(n, false))
        case Finished => None
        case _ => Some(KR.Abort(n))
      }
    case Key(k) => Some(k)
    case Finish(n) => Some(KR.Rewrite(n, WorkOf(s, n).clean))
    case GiveUp(n) => Some(KR.Rewrite(n, false))
    case _ => None
  }

  function Next(rings: Rings, s: State, step: Step): State
    requires Enabled(rings, s, step)
  {
    var keys := if KeyStep(rings, s, step).Some? then KR.Next(rings, s.keys, KeyStep(rings, s, step).value) else s.keys;
    match step
    case Join(n) => s.(keys := keys, up := s.up + {n}, work := s.work - {n})
    case Leave(n) => s.(keys := keys, up := s.up - {n}, work := s.work - {n})
    // A backfill starts from the beginning.
    case Key(k) => s.(keys := keys, work := if k.Clear? || k.Abort? then s.work else s.work - {k.n})
    case Probe(n) =>
      var w := WorkOf(s, n);
      s.(work := s.work[n := Probing(w.next + 1, w.clean && OpensTo(s.rows[w.next], rings[n]))])
    case Check(n) => s.(work := s.work[n := Rewriting(map[], {}, WorkOf(s, n).clean)])
    case Load(n, r) => var w := WorkOf(s, n); s.(work := s.work[n := w.(copies := w.copies[r := s.rows[r]])])
    // The row is written as it was loaded, sealed anew; a copy the ring cannot open is skipped.
    case Write(n, r) =>
      var w := WorkOf(s, n);
      s.(rows := if w.copies[r].readable && OpensTo(w.copies[r], rings[n]) then s.rows[r := Resealed(w.copies[r], rings[n])] else s.rows,
         work := s.work[n := w.(done := w.done + {r})])
    case Finish(n) => s.(keys := keys)
    case GiveUp(n) => s.(keys := keys)
  }

  function Initially(rows: seq<Row>): State {
    State(KR.Fresh, rows, {}, map[])
  }

  predicate Run(rings: Rings, s: State, steps: seq<Step>)
    decreases |steps|
  {
    steps == [] || (Enabled(rings, s, steps[0]) && Run(rings, Next(rings, s, steps[0]), steps[1..]))
  }

  function Exec(rings: Rings, s: State, steps: seq<Step>): State
    requires Run(rings, s, steps)
    decreases |steps|
  {
    if steps == [] then s else Exec(rings, Next(rings, s, steps[0]), steps[1..])
  }

  // ----- What the rings have to hold -----

  /** `older` was, by some chain of replacements, before `newer`. */
  ghost predicate ComesBefore(rings: Rings, older: Fingerprint, newer: Fingerprint) {
    exists keys :: KR.Chain(rings, keys) && |keys| >= 2 && keys[0] == older && keys[|keys| - 1] == newer
  }

  /** Each node's ring opens what any node with an earlier key may have sealed. */
  ghost predicate Closed(rings: Rings) {
    forall n, m :: n in rings && m in rings && rings[n].primary.Some? && rings[m].primary.Some?
                   && ComesBefore(rings, rings[m].primary.value, rings[n].primary.value)
                   ==> rings[n].Contains(rings[m].primary.value)
  }

  // ----- What every run keeps -----

  /** Past the straggler check: the node writes rows, or is about to give the old key up. */
  predicate Writes(s: State, n: Node) {
    n in s.up && (PlaceOf(s, n).Clearing? || (PlaceOf(s, n).Synced? && WorkOf(s, n).Rewriting?))
  }

  predicate Syncs(s: State, n: Node) {
    n in s.up && (PlaceOf(s, n).Synced? || PlaceOf(s, n).Clearing?)
  }

  /** A writer has the same key as every synced node, or synced no later. */
  predicate PairOk(rings: Rings, s: State, n: Node, m: Node) {
    n in rings && m in rings && Syncs(s, n) && Writes(s, m) && rings[n].primary != rings[m].primary ==>
      !Writes(s, n) && PlaceOf(s, m).since <= PlaceOf(s, n).since
  }

  /** What a node knows of the rows. */
  predicate KnowsRows(ring: KR.Ring, rows: seq<Row>, p: KR.Place, w: Work)
    requires ring.primary.Some?
  {
    if p.Clearing? then forall r :: 0 <= r < |rows| ==> Under(rows[r], ring.primary.value)
    else if p.Synced? && w.Probing? then
      w.next <= |rows| && (w.clean ==> forall r :: 0 <= r < w.next ==> OpensTo(rows[r], ring))
    else if p.Synced? && w.clean then
      && (forall r :: 0 <= r < |rows| ==> OpensTo(rows[r], ring))
      && (forall r :: r in w.copies ==> OpensTo(w.copies[r], ring))
      && (forall r :: r in w.done && 0 <= r < |rows| ==> Under(rows[r], ring.primary.value))
    else true
  }

  /** A copy is of its row: which rows are readable does not change. */
  predicate CopiesOk(rows: seq<Row>, w: Work) {
    w.Rewriting? ==> forall r :: r in w.copies && r < |rows| ==> w.copies[r].readable == rows[r].readable
  }

  ghost predicate Known(rings: Rings, s: State) {
    forall n :: n in s.up && n in rings && rings[n].primary.Some? ==>
      KnowsRows(rings[n], s.rows, PlaceOf(s, n), WorkOf(s, n)) && CopiesOk(s.rows, WorkOf(s, n))
  }

  ghost predicate Inv(rings: Rings, s: State) {
    KR.Inv(rings, s.keys) && (forall n, m :: PairOk(rings, s, n, m)) && Known(rings, s)
  }

  lemma KeysKept(rings: Rings, s: State, step: Step)
    requires Enabled(rings, s, step) && KR.Inv(rings, s.keys)
    ensures KR.Inv(rings, Next(rings, s, step).keys) && s.keys.past <= Next(rings, s, step).keys.past
  {
    if KeyStep(rings, s, step).Some? {
      KR.StepInv(rings, s.keys, KeyStep(rings, s, step).value);
    }
  }

  /** Whose place or work the step moves on. */
  function Mover(step: Step): Node {
    match step
    case Key(k) => k.n
    case Join(n) => n
    case Leave(n) => n
    case Probe(n) => n
    case Check(n) => n
    case Load(n, _) => n
    case Write(n, _) => n
    case Finish(n) => n
    case GiveUp(n) => n
  }

  lemma OthersStay(rings: Rings, s: State, step: Step, n: Node)
    requires Enabled(rings, s, step) && n != Mover(step)
    ensures var t := Next(rings, s, step);
            PlaceOf(t, n) == PlaceOf(s, n) && WorkOf(t, n) == WorkOf(s, n) && (n in t.up <==> n in s.up)
  {}

  /** A synced node's key is one of the past, at the place it remembers. */
  lemma SyncedAt(rings: Rings, s: State, n: Node)
    requires KR.Inv(rings, s.keys) && Syncs(s, n)
    ensures n in rings && KR.Held(rings[n], s.keys, PlaceOf(s, n).since)
  {
    assert n in s.keys.place;
    assert KR.PlaceOk(rings[n], s.keys, s.keys.place[n]);
  }

  /** A node that takes a step about its rows stays where it is, or passes the check with everyone's consent. */
  lemma BecomesWriter(rings: Rings, s: State, step: Step, n: Node)
    requires Enabled(rings, s, step) && Mover(step) == n && Writes(Next(rings, s, step), n)
    ensures Writes(s, n) || step == Check(n)
    ensures Syncs(s, n) && PlaceOf(Next(rings, s, step), n).since == PlaceOf(s, n).since
  {}

  lemma BecomesSynced(rings: Rings, s: State, step: Step, n: Node)
    requires Enabled(rings, s, step) && Mover(step) == n && Syncs(Next(rings, s, step), n)
    ensures || (Syncs(s, n) && PlaceOf(Next(rings, s, step), n).since == PlaceOf(s, n).since)
            || (!Writes(Next(rings, s, step), n) && PlaceOf(Next(rings, s, step), n).since >= |s.keys.past|)
  {}

  lemma StepPairs(rings: Rings, s: State, step: Step, n: Node, m: Node)
    requires Enabled(rings, s, step) && KR.Inv(rings, s.keys) && PairOk(rings, s, n, m)
    ensures PairOk(rings, Next(rings, s, step), n, m)
  {
    var t := Next(rings, s, step);
    if n in rings && m in rings && Syncs(t, n) && Writes(t, m) && rings[n].primary != rings[m].primary {
      if n == Mover(step) {
        OthersStay(rings, s, step, m);
        BecomesSynced(rings, s, step, n);
        SyncedAt(rings, s, m);
        if Writes(t, n) {
          BecomesWriter(rings, s, step, n);
        }
      } else if m == Mover(step) {
        OthersStay(rings, s, step, n);
        BecomesWriter(rings, s, step, m);
      } else {
        OthersStay(rings, s, step, n);
        OthersStay(rings, s, step, m);
      }
    }
  }

  /** What a writer seals, every synced node opens; and another writer's key is the same. */
  lemma WriterIsKnown(rings: Rings, s: State, n: Node, m: Node)
    requires Closed(rings) && KR.Inv(rings, s.keys) && PairOk(rings, s, n, m)
    requires Syncs(s, n) && Writes(s, m) && n in rings && m in rings && rings[n].primary.Some? && rings[m].primary.Some?
    ensures rings[n].Contains(rings[m].primary.value) && (Writes(s, n) ==> rings[n].primary == rings[m].primary)
  {
    SyncedAt(rings, s, n);
    SyncedAt(rings, s, m);
    if rings[n].primary != rings[m].primary {
      var i, j := PlaceOf(s, m).since - 1, PlaceOf(s, n).since - 1;
      var keys := s.keys.past[i..j + 1];
      assert i < j;
      forall x | 0 < x < |keys| ensures KR.Replaces(rings, keys[x], keys[x - 1]) {
        assert KR.Replaces(rings, s.keys.past[i + x], s.keys.past[i + x - 1]);
      }
      assert ComesBefore(rings, keys[0], keys[|keys| - 1]);
    }
  }

  /** A row written under a key the node knows leaves what it knows true. */
  lemma RowWritten(ring: KR.Ring, rows: seq<Row>, p: KR.Place, w: Work, r: nat, row: Row, key: Fingerprint)
    requires ring.primary.Some? && KnowsRows(ring, rows, p, w) && r < |rows| && Under(row, key) && ring.Contains(key)
    requires p.Clearing? || (p.Synced? && w.Rewriting?) ==> ring.primary == Some(key)
    ensures KnowsRows(ring, rows[r := row], p, w)
  {
    assert OpensTo(row, ring);
  }

  /** Another node's write. */
  lemma WriteSeenByOthers(rings: Rings, s: State, m: Node, r: nat, n: Node)
    requires Closed(rings) && Inv(rings, s) && Enabled(rings, s, Write(m, r))
    requires n != m && n in s.up && n in rings && rings[n].primary.Some?
    ensures KnowsRows(rings[n], Next(rings, s, Write(m, r)).rows, PlaceOf(s, n), WorkOf(s, n))
    ensures CopiesOk(Next(rings, s, Write(m, r)).rows, WorkOf(s, n))
  {
    var copy := WorkOf(s, m).copies[r];
    assert CopiesOk(s.rows, WorkOf(s, m));
    if copy.readable && OpensTo(copy, rings[m]) {
      if Syncs(s, n) {
        assert PairOk(rings, s, n, m);
        WriterIsKnown(rings, s, n, m);
        RowWritten(rings[n], s.rows, PlaceOf(s, n), WorkOf(s, n), r, Resealed(copy, rings[m]), rings[m].primary.value);
      }
    }
  }

  /** The writer's own write: the row is done. */
  lemma WriteSeenByWriter(rings: Rings, s: State, m: Node, r: nat)
    requires Inv(rings, s) && Enabled(rings, s, Write(m, r))
    ensures var t := Next(rings, s, Write(m, r));
            KnowsRows(rings[m], t.rows, PlaceOf(t, m), WorkOf(t, m)) && CopiesOk(t.rows, WorkOf(t, m))
  {
    var w := WorkOf(s, m);
    var copy := w.copies[r];
    assert KnowsRows(rings[m], s.rows, PlaceOf(s, m), w) && CopiesOk(s.rows, w);
    if copy.readable && OpensTo(copy, rings[m]) {
      RowWritten(rings[m], s.rows, PlaceOf(s, m), w, r, Resealed(copy, rings[m]), rings[m].primary.value);
    }
  }

  /** A step of its own that writes no row. */
  lemma MoverKnows(rings: Rings, s: State, step: Step)
    requires Inv(rings, s) && Enabled(rings, s, step) && !step.Write?
    requires var n := Mover(step); n in Next(rings, s, step).up && n in rings && rings[n].primary.Some?
    ensures var t, n := Next(rings, s, step), Mover(step);
            KnowsRows(rings[n], t.rows, PlaceOf(t, n), WorkOf(t, n)) && CopiesOk(t.rows, WorkOf(t, n))
  {
    var n := Mover(step);
    if n in s.up {
      assert KnowsRows(rings[n], s.rows, PlaceOf(s, n), WorkOf(s, n)) && CopiesOk(s.rows, WorkOf(s, n));
    }
  }

  lemma StepKnown(rings: Rings, s: State, step: Step)
    requires Closed(rings) && Inv(rings, s) && Enabled(rings, s, step)
    ensures Known(rings, Next(rings, s, step))
  {
    var t := Next(rings, s, step);
    forall n | n in t.up && n in rings && rings[n].primary.Some?
      ensures KnowsRows(rings[n], t.rows, PlaceOf(t, n), WorkOf(t, n)) && CopiesOk(t.rows, WorkOf(t, n))
    {
      if n == Mover(step) {
        if step.Write? {
          WriteSeenByWriter(rings, s, n, step.r);
        } else {
          MoverKnows(rings, s, step);
        }
      } else {
        OthersStay(rings, s, step, n);
        if step.Write? {
          WriteSeenByOthers(rings, s, step.n, step.r, n);
        }
      }
    }
  }

  lemma StepInv(rings: Rings, s: State, step: Step)
    requires Closed(rings) && Inv(rings, s) && Enabled(rings, s, step)
    ensures Inv(rings, Next(rings, s, step))
  {
    KeysKept(rings, s, step);
    StepKnown(rings, s, step);
    forall n, m ensures PairOk(rings, Next(rings, s, step), n, m) {
      StepPairs(rings, s, step, n, m);
    }
  }

  lemma {:induction false} RunInv(rings: Rings, s: State, steps: seq<Step>)
    requires Closed(rings) && Inv(rings, s) && Run(rings, s, steps)
    ensures Inv(rings, Exec(rings, s, steps))
    decreases |steps|
  {
    if steps != [] {
      StepInv(rings, s, steps[0]);
      RunInv(rings, Next(rings, s, steps[0]), steps[1..]);
    }
  }

  // ----- When the old key may go -----

  ghost predicate AllUnder(rows: seq<Row>, key: Fingerprint) {
    forall r :: 0 <= r < |rows| ==> Under(rows[r], key)
  }

  /** Whenever a node empties `retiring`, every readable row needs the current key alone. */
  ghost predicate FreesOnlyUnneededKeys(rings: Rings) {
    forall rows, steps, n ::
      Run(rings, Initially(rows), steps) && Enabled(rings, Exec(rings, Initially(rows), steps), Key(KR.Clear(n)))
      && Exec(rings, Initially(rows), steps).keys.current == rings[n].primary
      ==> AllUnder(Exec(rings, Initially(rows), steps).rows, rings[n].primary.value)
  }

  lemma ClosedRingsFreeSafely(rings: Rings, rows: seq<Row>, steps: seq<Step>, n: Node)
    requires Closed(rings) && Run(rings, Initially(rows), steps)
    requires Enabled(rings, Exec(rings, Initially(rows), steps), Key(KR.Clear(n)))
    ensures AllUnder(Exec(rings, Initially(rows), steps).rows, rings[n].primary.value)
  {
    RunInv(rings, Initially(rows), steps);
    var s := Exec(rings, Initially(rows), steps);
    assert KnowsRows(rings[n], s.rows, PlaceOf(s, n), WorkOf(s, n));
  }

  // ----- And when not -----

  lemma {:induction false} RunThen(rings: Rings, s: State, first: seq<Step>, rest: seq<Step>)
    requires Run(rings, s, first) && Run(rings, Exec(rings, s, first), rest)
    ensures Run(rings, s, first + rest) && Exec(rings, s, first + rest) == Exec(rings, Exec(rings, s, first), rest)
    decreases |first|
  {
    if first == [] {
      assert first + rest == rest;
    } else {
      RunThen(rings, Next(rings, s, first[0]), first[1..], rest);
      assert (first + rest)[1..] == first[1..] + rest;
    }
  }

  lemma Onwards(rings: Rings, s: State, steps: seq<Step>, step: Step)
    requires Run(rings, s, steps) && Enabled(rings, Exec(rings, s, steps), step)
    ensures Run(rings, s, steps + [step]) && Exec(rings, s, steps + [step]) == Next(rings, Exec(rings, s, steps), step)
  {
    assert [step][1..] == [];
    RunThen(rings, s, steps, [step]);
  }

  const PLAIN := Row(true, [None])

  /** Nobody but `m` is under way. */
  ghost predicate Alone(s: State, m: Node) {
    s.up == {m} && forall n :: n != m ==> PlaceOf(s, n).Reading? || PlaceOf(s, n).Finished?
  }

  /** `m` is about to write the one row, which it loaded as plaintext; meanwhile the cluster is at `key`. */
  ghost predicate Slow(s: State, m: Node, key: Fingerprint) {
    && Alone(s, m) && s.rows == [PLAIN] && s.keys.current == Some(key)
    && PlaceOf(s, m).Synced? && WorkOf(s, m) == Rewriting(map[0 := PLAIN], {}, true)
  }

  lemma FirstSyncs(rings: Rings, m: Node) returns (steps: seq<Step>)
    requires m in rings && rings[m].primary.Some?
    ensures Run(rings, Initially([PLAIN]), steps)
    ensures var s := Exec(rings, Initially([PLAIN]), steps);
            Alone(s, m) && s.rows == [PLAIN] && s.keys.current == rings[m].primary && PlaceOf(s, m).Synced? && WorkOf(s, m) == Probing(0, true)
  {
    var s := Initially([PLAIN]);
    steps := [];
    Onwards(rings, s, steps, Join(m));
    steps := steps + [Join(m)];
    Onwards(rings, s, steps, Key(KR.Read(m)));
    steps := steps + [Key(KR.Read(m))];
    assert PlaceOf(Exec(rings, s, steps), m) == KR.Swapping(None);
    Onwards(rings, s, steps, Key(KR.Swap(m)));
    steps := steps + [Key(KR.Swap(m))];
  }

  lemma ThenLoads(rings: Rings, s: State, m: Node) returns (steps: seq<Step>)
    requires m in rings && rings[m].primary.Some? && Alone(s, m) && s.rows == [PLAIN] && s.keys.current == rings[m].primary
    requires PlaceOf(s, m).Synced? && WorkOf(s, m) == Probing(0, true)
    ensures Run(rings, s, steps) && Slow(Exec(rings, s, steps), m, rings[m].primary.value)
  {
    steps := [];
    Onwards(rings, s, steps, Probe(m));
    steps := steps + [Probe(m)];
    Onwards(rings, s, steps, Check(m));
    steps := steps + [Check(m)];
    assert WorkOf(Exec(rings, s, steps), m) == Rewriting(map[], {}, true);
    Onwards(rings, s, steps, Load(m, 0));
    steps := steps + [Load(m, 0)];
    var t := Exec(rings, s, steps);
    assert WorkOf(t, m).copies == map[0 := PLAIN];
    assert forall n :: PlaceOf(t, n) == PlaceOf(s, n);
  }

  /** Another node comes, moves the cluster on by one key, and goes. */
  lemma MovesOn(rings: Rings, s: State, m: Node, older: Fingerprint, newer: Fingerprint) returns (steps: seq<Step>)
    requires Slow(s, m, older) && KR.Replaces(rings, newer, older) && m in rings && rings[m].primary != Some(newer)
    ensures Run(rings, s, steps) && Slow(Exec(rings, s, steps), m, newer)
  {
    var p :| p in rings && rings[p].primary == Some(newer) && older in rings[p].retired;
    steps := [];
    Onwards(rings, s, steps, Join(p));
    steps := steps + [Join(p)];
    Onwards(rings, s, steps, Key(KR.Read(p)));
    steps := steps + [Key(KR.Read(p))];
    assert PlaceOf(Exec(rings, s, steps), p) == KR.Swapping(Some(older));
    Onwards(rings, s, steps, Key(KR.Swap(p)));
    steps := steps + [Key(KR.Swap(p))];
    Onwards(rings, s, steps, Leave(p));
    steps := steps + [Leave(p)];
    var t := Exec(rings, s, steps);
    assert t.up == s.up + {p} - {p} == {m};
    assert forall n :: n != p ==> PlaceOf(t, n) == PlaceOf(s, n);
  }

  /** The cluster goes all along the chain while `m` is slow. */
  lemma {:induction false} ChainPasses(rings: Rings, s: State, m: Node, keys: seq<Fingerprint>) returns (steps: seq<Step>)
    requires m in rings && keys != [] && Slow(s, m, keys[0]) && KR.Chain(rings, keys)
    requires forall i :: 0 < i < |keys| ==> rings[m].primary != Some(keys[i])
    ensures Run(rings, s, steps) && Slow(Exec(rings, s, steps), m, keys[|keys| - 1])
    decreases |keys|
  {
    steps := [];
    if |keys| > 1 {
      assert KR.Replaces(rings, keys[1], keys[0]);
      var first := MovesOn(rings, s, m, keys[0], keys[1]);
      forall i | 0 < i < |keys[1..]| ensures KR.Replaces(rings, keys[1..][i], keys[1..][i - 1]) {
        assert KR.Replaces(rings, keys[i + 1], keys[i]);
      }
      var rest := ChainPasses(rings, Exec(rings, s, first), m, keys[1..]);
      RunThen(rings, s, first, rest);
      steps := first + rest;
    }
  }

  /** The last of the chain's `Z`s is where the cluster really leaves it. */
  lemma {:induction false} LeavesForGood(rings: Rings, keys: seq<Fingerprint>) returns (tail: seq<Fingerprint>)
    requires KR.Chain(rings, keys) && |keys| >= 2 && keys[0] != keys[|keys| - 1]
    ensures KR.Chain(rings, tail) && |tail| >= 2 && tail[0] == keys[0] && tail[|tail| - 1] == keys[|keys| - 1]
    ensures forall i :: 0 < i < |tail| ==> tail[i] != tail[0]
    decreases |keys|
  {
    if i :| 0 < i < |keys| && keys[i] == keys[0] {
      forall j | 0 < j < |keys[i..]| ensures KR.Replaces(rings, keys[i..][j], keys[i..][j - 1]) {
        assert KR.Replaces(rings, keys[i + j], keys[i + j - 1]);
      }
      tail := LeavesForGood(rings, keys[i..]);
    } else {
      tail := keys;
    }
  }

  /** A node with the new key and a ring without the old one has probed the row, and only then does `m` write it and go. */
  ghost predicate Overtaken(rings: Rings, s: State, n: Node, key: Fingerprint) {
    && n in rings && s.up == {n} && s.rows == [Row(true, [Some(key)])] && s.keys.current == rings[n].primary
    && PlaceOf(s, n).Synced? && WorkOf(s, n) == Probing(1, true)
  }

  lemma ProbesTooEarly(rings: Rings, s: State, n: Node, m: Node) returns (steps: seq<Step>)
    requires n in rings && m in rings && n != m && rings[n].primary.Some? && rings[m].primary.Some?
    requires Slow(s, m, rings[n].primary.value)
    ensures Run(rings, s, steps) && Overtaken(rings, Exec(rings, s, steps), n, rings[m].primary.value)
  {
    steps := [];
    Onwards(rings, s, steps, Join(n));
    steps := steps + [Join(n)];
    Onwards(rings, s, steps, Key(KR.Read(n)));
    steps := steps + [Key(KR.Read(n))];
    Onwards(rings, s, steps, Probe(n));
    steps := steps + [Probe(n)];
    var t := Exec(rings, s, steps);
    assert WorkOf(t, m) == Rewriting(map[0 := PLAIN], {}, true) && WorkOf(t, n) == Probing(1, true);
    var last := WritesAndGoes(rings, t, n, m);
    RunThen(rings, s, steps, last);
    steps := steps + last;
  }

  lemma WritesAndGoes(rings: Rings, s: State, n: Node, m: Node) returns (steps: seq<Step>)
    requires n in rings && m in rings && n != m && rings[n].primary.Some? && rings[m].primary.Some?
    requires s.up == {m, n} && s.rows == [PLAIN] && s.keys.current == rings[n].primary
    requires PlaceOf(s, m).Synced? && WorkOf(s, m) == Rewriting(map[0 := PLAIN], {}, true)
    requires PlaceOf(s, n).Synced? && WorkOf(s, n) == Probing(1, true)
    ensures Run(rings, s, steps) && Overtaken(rings, Exec(rings, s, steps), n, rings[m].primary.value)
  {
    steps := [];
    Onwards(rings, s, steps, Write(m, 0));
    steps := steps + [Write(m, 0)];
    assert Resealed(PLAIN, rings[m]) == Row(true, [rings[m].primary]);
    assert Exec(rings, s, steps).rows == [Row(true, [rings[m].primary])];
    Onwards(rings, s, steps, Leave(m));
    steps := steps + [Leave(m)];
    assert Exec(rings, s, steps).up == {m, n} - {m} == {n};
  }

  lemma GoesOnToClear(rings: Rings, s: State, n: Node, key: Fingerprint) returns (steps: seq<Step>)
    requires n in rings && rings[n].primary.Some? && Overtaken(rings, s, n, key) && !rings[n].Contains(key)
    ensures Run(rings, s, steps)
    ensures var t := Exec(rings, s, steps);
            && Enabled(rings, t, Key(KR.Clear(n))) && t.keys.current == rings[n].primary
            && t.rows == [Row(true, [Some(key)])]
  {
    var row := Row(true, [Some(key)]);
    steps := [];
    Onwards(rings, s, steps, Check(n));
    steps := steps + [Check(n)];
    Onwards(rings, s, steps, Load(n, 0));
    steps := steps + [Load(n, 0)];
    assert WorkOf(Exec(rings, s, steps), n) == Rewriting(map[][0 := row], {}, true);
    assert row.seals[0].Some? && !OpensTo(row, rings[n]);
    Onwards(rings, s, steps, Write(n, 0));
    steps := steps + [Write(n, 0)];
    Onwards(rings, s, steps, Finish(n));
    steps := steps + [Finish(n)];
  }

  /** A node whose ring lacks an earlier key can give that key up while a row is still under it. */
  lemma NeededKeyFreed(rings: Rings, n: Node, m: Node) returns (steps: seq<Step>)
    requires n in rings && m in rings && rings[n].primary.Some? && rings[m].primary.Some?
    requires ComesBefore(rings, rings[m].primary.value, rings[n].primary.value) && !rings[n].Contains(rings[m].primary.value)
    ensures Run(rings, Initially([PLAIN]), steps)
    ensures var t := Exec(rings, Initially([PLAIN]), steps);
            && Enabled(rings, t, Key(KR.Clear(n))) && t.keys.current == rings[n].primary
            && !AllUnder(t.rows, rings[n].primary.value)
  {
    var s, z := Initially([PLAIN]), rings[m].primary.value;
    var keys :| KR.Chain(rings, keys) && |keys| >= 2 && keys[0] == z && keys[|keys| - 1] == rings[n].primary.value;
    var tail := LeavesForGood(rings, keys);
    var syncing := FirstSyncs(rings, m);
    var loading := ThenLoads(rings, Exec(rings, s, syncing), m);
    RunThen(rings, s, syncing, loading);
    steps := syncing + loading;
    var passing := ChainPasses(rings, Exec(rings, s, steps), m, tail);
    RunThen(rings, s, steps, passing);
    steps := steps + passing;
    var probing := ProbesTooEarly(rings, Exec(rings, s, steps), n, m);
    RunThen(rings, s, steps, probing);
    steps := steps + probing;
    var clearing := GoesOnToClear(rings, Exec(rings, s, steps), n, z);
    RunThen(rings, s, steps, clearing);
    steps := steps + clearing;
    var row := Exec(rings, s, steps).rows[0];
    assert row.seals[0].Some? && !Under(row, rings[n].primary.value);
  }

  /**
   However the nodes interleave, an old key is given up only once no readable row needs it,
   if and only if each ring holds every earlier key some node may still seal with.
   */
  lemma FreesOnlyUnneededKeysIffClosed(rings: Rings)
    ensures FreesOnlyUnneededKeys(rings) <==> Closed(rings)
  {
    if Closed(rings) {
      forall rows, steps, n |
        Run(rings, Initially(rows), steps) && Enabled(rings, Exec(rings, Initially(rows), steps), Key(KR.Clear(n)))
        && Exec(rings, Initially(rows), steps).keys.current == rings[n].primary
        ensures AllUnder(Exec(rings, Initially(rows), steps).rows, rings[n].primary.value)
      {
        ClosedRingsFreeSafely(rings, rows, steps, n);
      }
    } else {
      var n, m :| n in rings && m in rings && rings[n].primary.Some? && rings[m].primary.Some?
                  && ComesBefore(rings, rings[m].primary.value, rings[n].primary.value) && !rings[n].Contains(rings[m].primary.value);
      var steps := NeededKeyFreed(rings, n, m);
    }
  }
}
