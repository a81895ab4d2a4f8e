/**
 Access changes carried out on the session tables: a change is submitted, its sessions are
 looked up, re-checked and closed, and if any of that fails it is queued for the next sweep.
 */
module Revocation {
  import opened Prelude
  import opened Sorted
  import opened Sessions
  import opened SessionStore
  import AR = AccessRecheck
  import opened ExpirySweep

  type Changes = seq<AR.AccessChange>

  /** Whose session it is, and whether it is a browser's. */
  datatype Account = Account(user: Option<AR.User>, http: bool)

  type Accounts = SessionId -> Account

  // ----- The sessions a change concerns -----

  function Joined(users: Users, accounts: Accounts, row: TargetSession): AR.Access
    requires row.parent in users
  {
    AR.Access(row.parent, accounts(row.parent).user, row.target, row.ended, users[row.parent].ended, row.ticket.Some?, accounts(row.parent).http)
  }

  predicate Affected(rules: AR.Rules, change: AR.AccessChange, users: Users, accounts: Accounts, row: TargetSession) {
    row.parent in users && AR.Refused(rules, change, Joined(users, accounts, row))
  }

  /** The sessions to close, of the tables as they are. */
  function ToCloseIn(rules: AR.Rules, change: AR.AccessChange, accounts: Accounts, s: State): set<SessionId> {
    set r | r in s.targets && Affected(rules, change, s.users, accounts, s.targets[r]) :: s.targets[r].parent
  }

  /** The rows are the target sessions joined with their user sessions, in some order. */
  ghost predicate Lists(s: State, accounts: Accounts, rows: seq<AR.Access>) {
    && (forall r :: r in s.targets && s.targets[r].parent in s.users ==> Joined(s.users, accounts, s.targets[r]) in rows)
    && forall row :: row in rows ==>
         exists r :: r in s.targets && s.targets[r].parent in s.users && row == Joined(s.users, accounts, s.targets[r])
  }

  lemma ListedToClose(rules: AR.Rules, change: AR.AccessChange, accounts: Accounts, s: State, rows: seq<AR.Access>)
    requires Lists(s, accounts, rows)
    ensures AR.ToClose(rules, change, rows) == ToCloseIn(rules, change, accounts, s)
  {
    forall id ensures id in AR.ToClose(rules, change, rows) <==> id in ToCloseIn(rules, change, accounts, s) {
      AR.ToCloseIs(rules, change, rows, id);
      if id in ToCloseIn(rules, change, accounts, s) {
        var r :| r in s.targets && Affected(rules, change, s.users, accounts, s.targets[r]) && s.targets[r].parent == id;
        assert Joined(s.users, accounts, s.targets[r]) in rows;
      }
    }
  }

  /** The query's inner join. */
  method Select(s: State, accounts: Accounts) returns (rows: seq<AR.Access>)
    ensures Lists(s, accounts, rows)
  {
    rows := [];
    var left := s.targets.Keys;
    while left != {}
      invariant left <= s.targets.Keys
      invariant forall r :: r in s.targets && r !in left && s.targets[r].parent in s.users ==> Joined(s.users, accounts, s.targets[r]) in rows
      invariant forall row :: row in rows ==>
                  exists r :: r in s.targets && s.targets[r].parent in s.users && row == Joined(s.users, accounts, s.targets[r])
      decreases |left|
    {
      var r :| r in left;
      if s.targets[r].parent in s.users {
        rows := rows + [Joined(s.users, accounts, s.targets[r])];
      }
      left := left - {r};
    }
  }

  // ----- No change is lost -----

  /** Each change was submitted as often as it is carried out, waiting, or in hand. */
  ghost predicate Settled(submitted: Changes, carriedOut: Changes, waiting: Changes, inHand: Changes) {
    forall c :: Times(submitted, c) == Times(carriedOut, c) + Times(waiting, c) + Times(inHand, c)
  }

  /** A change put down goes to one of the two lists. */
  lemma PutDown(submitted: Changes, carriedOut: Changes, waiting: Changes, change: AR.AccessChange, inHand: Changes)
    requires Settled(submitted, carriedOut, waiting, [change] + inHand)
    ensures Settled(submitted, carriedOut + [change], waiting, inHand)
    ensures Settled(submitted, carriedOut, waiting + [change], inHand)
  {
    forall c ensures && Times([change] + inHand, c) == Times([change], c) + Times(inHand, c)
                     && Times(carriedOut + [change], c) == Times(carriedOut, c) + Times([change], c)
                     && Times(waiting + [change], c) == Times(waiting, c) + Times([change], c)
    {
      TimesBoth([change], inHand, c);
      TimesBoth(carriedOut, [change], c);
      TimesBoth(waiting, [change], c);
    }
  }

  lemma PickUp(submitted: Changes, carriedOut: Changes, waiting: Changes)
    requires Settled(submitted, carriedOut, waiting, [])
    ensures Settled(submitted, carriedOut, [], waiting)
  {
    assert forall c: AR.AccessChange :: Times([], c) == 0;
  }

  lemma Submit(submitted: Changes, carriedOut: Changes, waiting: Changes, inHand: Changes, change: AR.AccessChange)
    requires Settled(submitted, carriedOut, waiting, inHand)
    ensures Settled(submitted + [change], carriedOut, waiting, [change] + inHand)
  {
    forall c ensures && Times(submitted + [change], c) == Times(submitted, c) + Times([change], c)
                     && Times([change] + inHand, c) == Times([change], c) + Times(inHand, c)
    {
      TimesBoth(submitted, [change], c);
      TimesBoth([change], inHand, c);
    }
  }

  /** A change carried out: the authorization it was re-checked against, and the tables it was looked up in. */
  datatype Proof = Proof(change: AR.AccessChange, rules: AR.Rules, at: State)

  function Names(proofs: seq<Proof>): Changes {
    seq(|proofs|, i requires 0 <= i < |proofs| => proofs[i].change)
  }

  /** Every session the change was to close has ended. */
  ghost predicate Closed(accounts: Accounts, users: Users, p: Proof) {
    forall id :: id in ToCloseIn(p.rules, p.change, accounts, p.at) ==> IsOver(users, id)
  }

  ghost predicate AllClosed(accounts: Accounts, users: Users, proofs: seq<Proof>) {
    forall i :: 0 <= i < |proofs| ==> Closed(accounts, users, proofs[i])
  }

  lemma ClosedStays(accounts: Accounts, a: Users, b: Users, proofs: seq<Proof>)
    requires Later(a, b) && AllClosed(accounts, a, proofs)
    ensures AllClosed(accounts, b, proofs)
  {
    LaterStill(a, a, b);
    forall i | 0 <= i < |proofs| ensures Closed(accounts, b, proofs[i]) {
      assert Closed(accounts, a, proofs[i]);
    }
  }

  /** Every sweep that took anybody was followed by a re-check of its users. */
  ghost predicate Followed(sweeps: seq<Sweep>, attempts: Changes) {
    forall i :: 0 <= i < |sweeps| && sweeps[i].users != {} ==> AR.Users(sweeps[i].users) in attempts
  }

  class Revoker {
    const services: Services
    const accounts: Accounts
    /** The changes waiting for a retry. */
    var changes: Changes
    /** The last successful tick of the expiry sweep. */
    var sweptUntil: Option<Time>
    /** Every change there has been; those carried out; those this task has in hand; and its attempts, in order. */
    ghost var submitted: Changes
    ghost var carriedOut: seq<Proof>
    ghost var inHand: Changes
    ghost var attempts: Changes
    /** All ticks so far, and the role assignments at each. */
    ghost var ticks: seq<Tick>
    ghost var tables: seq<Table>

    constructor (services: Services, accounts: Accounts)
      requires services.Valid() && Free(At(services.st, services.me))
      ensures Valid() && this.services == services && this.accounts == accounts && inHand == [] && ticks == []
    {
      this.services, this.accounts := services, accounts;
      changes, sweptUntil := [], None;
      submitted, carriedOut, inHand, attempts, ticks, tables := [], [], [], [], [], [];
    }

    /** The session tables are in order, no change is lost or made up, and a change carried out has closed its sessions. */
    ghost predicate Valid()
      reads this, services
    {
      && services.Valid() && Free(At(services.st, services.me))
      && Settled(submitted, Names(carriedOut), changes, inHand)
      && AllClosed(accounts, services.st.users, carriedOut)
      && |tables| == |ticks| && sweptUntil == SweptUntil(ticks) && Followed(Sweeps(tables, ticks), attempts)
    }

    /** Other requests submit changes; what fails of theirs is queued here too. */
    method Interfere()
      requires Valid()
      modifies `changes, `carriedOut, `submitted
      ensures Valid() && old(submitted) <= submitted
    {
    }

    method Pause()
      requires Valid()
      modifies `changes, `carriedOut, `submitted, services
      ensures Valid() && old(submitted) <= submitted && Later(old(services.st).users, services.st.users)
    {
      services.Wait();
      ClosedStays(accounts, old(services.st).users, services.st.users, carriedOut);
      Interfere();
    }

    /**
     try_close_sessions_no_longer_authorised: look the sessions up, re-check each pair once,
     and close the refused ones. On success they have all ended.
     */
    method TryClose(rules: AR.Rules, change: AR.AccessChange) returns (ok: bool, ghost at: State)
      requires services.Valid() && Free(At(services.st, services.me))
      modifies services
      ensures services.Valid() && Free(At(services.st, services.me))
      ensures Later(old(services.st).users, at.users) && Later(at.users, services.st.users)
      ensures ok ==> Closed(accounts, services.st.users, Proof(change, rules, at))
    {
      services.Wait();
      at := services.st;
      ok := *;
      if !ok {
        return;
      }
      var rows := Select(services.st, accounts);
      var ids, checks := AR.SessionsToClose(rules, change, rows);
      ListedToClose(rules, change, accounts, at, rows);
      services.Wait();
      ghost var checked := services.st.users;
      if ids != [] {
        ok := services.CloseIds(Ids(ids));
      }
      LaterStill(at.users, checked, services.st.users);
      assert ids == [] ==> Ids(ids) == {};
    }

    /** The lookups and closes of one change, with others at work too. */
    method Carry(rules: AR.Rules, change: AR.AccessChange) returns (ok: bool, ghost at: State)
      requires Valid()
      modifies `changes, `carriedOut, `submitted, services
      ensures Valid() && old(submitted) <= submitted
      ensures ok ==> Closed(accounts, services.st.users, Proof(change, rules, at))
    {
      Pause();
      ghost var users := services.st.users;
      ok, at := TryClose(rules, change);
      LaterStill(users, at.users, services.st.users);
      ClosedStays(accounts, users, services.st.users, carriedOut);
    }

    /** One re-check: carried out, or queued. */
    method Attempt(rules: AR.Rules, change: AR.AccessChange, ghost rest: Changes)
      requires Valid() && inHand == [change] + rest
      modifies `changes, `carriedOut, `submitted, `inHand, `attempts, services
      ensures Valid() && inHand == rest && old(submitted) <= submitted && attempts == old(attempts) + [change]
    {
      ghost var at;
      var ok;
      ok, at := Carry(rules, change);
      PutDown(submitted, Names(carriedOut), changes, change, rest);
      if ok {
        assert Names(carriedOut + [Proof(change, rules, at)]) == Names(carriedOut) + [change];
        carriedOut := carriedOut + [Proof(change, rules, at)];
      } else {
        changes := changes + [change];
      }
      inHand, attempts := rest, attempts + [change];
    }

    /** close_sessions_no_longer_authorised: always Ok, because the change is carried out or queued. */
    method CloseNoLongerAuthorised(rules: AR.Rules, change: AR.AccessChange)
      requires Valid()
      modifies `changes, `carriedOut, `submitted, `inHand, `attempts, services
      ensures Valid() && inHand == old(inHand) && change in submitted && attempts == old(attempts) + [change]
    {
      ghost var rest := inHand;
      Submit(submitted, Names(carriedOut), changes, inHand, change);
      submitted, inHand := submitted + [change], [change] + inHand;
      Attempt(rules, change, rest);
      assert submitted[|old(submitted)|] == change;
    }

    /** retry_pending_revocations: what was queued is tried once each; `rules(i)` is the authorization the i-th finds. */
    method RetryPending(rules: nat -> AR.Rules)
      requires Valid() && inHand == []
      modifies `changes, `carriedOut, `submitted, `inHand, `attempts, services
      ensures Valid() && inHand == [] && attempts == old(attempts) + old(changes)
    {
      var taken := changes;
      PickUp(submitted, Names(carriedOut), changes);
      changes, inHand := [], taken;
      for i := 0 to |taken|
        invariant Valid() && inHand == taken[i..] && attempts == old(attempts) + taken[..i]
      {
        assert taken[..i + 1] == taken[..i] + [taken[i]];
        assert taken[i..] == [taken[i]] + taken[i + 1..];
        Attempt(rules(i), taken[i], taken[i + 1..]);
      }
      assert taken[..|taken|] == taken;
    }

    /**
     One tick: each queued change is tried again, then the users of the assignments that
     expired. The window moves on only when the query went through.
     */
    method OnTick(table: Table, now: Time, rules: nat -> AR.Rules) returns (ok: bool)
      requires Valid() && inHand == []
      modifies this, services
      ensures Valid() && inHand == [] && ticks == old(ticks) + [Tick(now, ok)] && tables == old(tables) + [table]
      ensures var users := UsersIn(table, Window(old(sweptUntil), now));
              attempts == old(attempts) + old(changes) + if ok && users != {} then [AR.Users(users)] else []
    {
      var queued := |changes|;
      RetryPending(rules);
      ok := *;
      var users := UsersIn(table, Window(sweptUntil, now));
      if ok && users != {} {
        CloseNoLongerAuthorised(rules(queued), AR.Users(users));
      }
      if ok {
        sweptUntil := Some(now);
      }
      ticks, tables := ticks + [Tick(now, ok)], tables + [table];
      assert ticks[..|ticks| - 1] == old(ticks) && tables[..|ticks| - 1] == old(tables);
    }
  }
}
