/**
 The login shared by the database protocols, as the trace of what it sends, learns and
 records. What the user, the administrators and the tables answer is given; whether a
 message gets through is left open.
 */
module DbLogin {
  import opened Prelude

  type Target = nat

  datatype Factor = Password | WebUserApproval | OtherFactor

  /** A lookup that may fail. */
  datatype Answer<T> = Broken | Answered(value: T)

  /** What resolving the user comes to; `Unusable` is an address they may not come from, or a failed lookup. */
  datatype Account = Locked | Unknown | Unusable | Known

  /** What approval on the web comes to, step by step. */
  datatype Web = Web(bypassed: Answer<bool>, url: bool, shown: Answer<bool>, accepted: bool)

  /** One turn of the loop: the verdict, and the answers its branch asks for. */
  datatype Turn =
    | Accepted(identity: bool, authorized: Answer<Option<Target>>)
    | Need(kinds: set<Factor>, password: Answer<Option<bool>>, web: Web)
    | Rejected

  datatype Event =
    | AuthOk
    | Denial
    | PasswordPrompt
    | WebPrompt
    | Notice
    | SawAccepted
    | Authorized(target: Target)
    | Passed(target: Target)
    | FailedAttempt
    | Cleared

  /** `Unfinished`: still waiting for the next verdict when the script ends. */
  datatype Outcome = Approved(target: Target) | NotApproved | Error | Unfinished

  datatype Gate = Open | Shut | Failing

  /** The turns that count toward brute-force protection: a wrong password, a rejection, a target out of reach. */
  predicate Fault(turn: Turn) {
    match turn
    case Accepted(identity, authorized) => identity && authorized == Answered(None)
    case Need(kinds, password, _) => Password in kinds && password == Answered(Some(false))
    case Rejected => true
  }

  /** The turns after which the loop may come around again. */
  predicate GoesOn(turn: Turn) {
    match turn
    case Accepted(_, _) => false
    case Need(kinds, password, web) =>
      if Password in kinds then password == Answered(Some(true))
      else WebUserApproval in kinds && (web.bypassed == Answered(true) || (web.bypassed == Answered(false) && web.url && web.accepted))
    case Rejected => false
  }

  /** The failed attempts a login is to record: one for an unknown user, or for the fault it ended in. */
  function AttemptsFor(account: Account, turns: seq<Turn>, ended: nat): nat {
    match account
    case Unknown => 1
    case Known => One(ended < |turns| && Fault(turns[ended]))
    case _ => 0
  }

  lemma TimesMore(log: seq<Event>, e: Event, x: Event)
    ensures Times(log + [e], x) == Times(log, x) + One(x == e)
  {
    TimesBoth(log, [e], x);
  }

  /** So far so good: nothing refused, and the success message sent exactly when the permit is spent. */
  ghost predicate Clean(log: seq<Event>, permit: bool) {
    Times(log, AuthOk) == One(!permit) && Times(log, Denial) == 0 && Times(log, FailedAttempt) == 0
  }

  ghost predicate VettedAt(log: seq<Event>, ticket: bool, target: Target, j: nat, k: nat) {
    && j < k < |log| && log[j] == Authorized(target) && log[k] == Passed(target)
    && (ticket || (0 < j && log[j - 1] == SawAccepted))
  }

  /** The target was authorised, for a user right after an Accepted verdict, and then let through the gate. */
  ghost predicate Vetted(log: seq<Event>, ticket: bool, target: Target) {
    exists j, k :: VettedAt(log, ticket, target, j, k)
  }

  lemma VettedStays(log: seq<Event>, ticket: bool, target: Target, e: Event)
    requires Vetted(log, ticket, target)
    ensures Vetted(log + [e], ticket, target)
  {
    var j, k :| VettedAt(log, ticket, target, j, k);
    assert VettedAt(log + [e], ticket, target, j, k);
  }

  /** What a finished login has said, and how many failed attempts it recorded. */
  ghost predicate Told(log: seq<Event>, outcome: Outcome, ticket: bool, attempts: nat) {
    && Times(log, AuthOk) <= 1 && Times(log, Denial) <= 1 && Times(log, FailedAttempt) == attempts
    && (outcome.Approved? ==> attempts == 0 && Times(log, AuthOk) == 1 && Times(log, Denial) == 0 && Vetted(log, ticket, outcome.target))
    && (outcome.NotApproved? ==> Times(log, Denial) == 1 && 0 < |log| && log[|log| - 1] == Denial)
    && (outcome.Unfinished? ==> Times(log, Denial) == 0)
  }

  /** One login. `web`: the protocol can show a web prompt; `early`: its notice of waiting sends the success message. */
  class Login {
    var log: seq<Event>
    var permit: bool
    const web: bool
    const early: bool

    constructor (web: bool, early: bool)
      ensures log == [] && permit && this.web == web && this.early == early
    {
      log, permit, this.web, this.early := [], true, web, early;
    }

    method Emit(e: Event)
      modifies `log
      ensures log == old(log) + [e]
      ensures Times(log, AuthOk) == Times(old(log), AuthOk) + One(e == AuthOk)
      ensures Times(log, Denial) == Times(old(log), Denial) + One(e == Denial)
      ensures Times(log, FailedAttempt) == Times(old(log), FailedAttempt) + One(e == FailedAttempt)
    {
      TimesMore(log, e, AuthOk);
      TimesMore(log, e, Denial);
      TimesMore(log, e, FailedAttempt);
      log := log + [e];
    }

    /** send_auth_ok takes the only permit; a transport error ends the login. */
    method SendAuthOk() returns (ok: bool)
      requires permit && Clean(log, permit)
      modifies `log, `permit
      ensures !permit && log == (if ok then old(log) + [AuthOk] else old(log)) && (ok ==> Clean(log, permit))
    {
      permit := false;
      ok := *;
      if ok {
        Emit(AuthOk);
      }
    }

    /** send_denied, and stop. */
    method Refuse(ghost ticket: bool, ghost attempts: nat) returns (outcome: Outcome)
      requires Times(log, AuthOk) <= 1 && Times(log, Denial) == 0 && Times(log, FailedAttempt) == attempts
      modifies `log
      ensures Times(log, AuthOk) == Times(old(log), AuthOk) && (outcome == NotApproved || outcome == Error)
      ensures Told(log, outcome, ticket, attempts)
    {
      var ok := *;
      if !ok {
        return Error;
      }
      Emit(Denial);
      return NotApproved;
    }

    /** record_password_failure: whether the record was kept is not looked at. */
    method RecordFailure()
      requires Clean(log, permit)
      modifies `log
      ensures Times(log, Denial) == 0 && Times(log, AuthOk) == Times(old(log), AuthOk) && Times(log, FailedAttempt) == 1
    {
      Emit(FailedAttempt);
    }

    /** A fault that is answered with a denial. */
    method RecordAndRefuse() returns (outcome: Outcome)
      requires Clean(log, permit)
      modifies `log
      ensures Times(log, AuthOk) == Times(old(log), AuthOk) && (outcome == NotApproved || outcome == Error)
      ensures Told(log, outcome, false, 1)
    {
      RecordFailure();
      outcome := Refuse(false, 1);
    }

    /** notify_awaiting_admin_approval: an early protocol sends its success message with it. */
    method NotifyAwaiting() returns (ok: bool)
      requires Clean(log, permit)
      modifies `log, `permit
      ensures old(log) <= log && Times(log, AuthOk) <= 1 && Times(log, Denial) == 0 && Times(log, FailedAttempt) == 0
      ensures ok ==> Clean(log, permit)
      ensures !early ==> permit == old(permit)
    {
      if early && permit {
        ok := SendAuthOk();
        if !ok {
          return;
        }
      }
      Emit(Notice);
      ok := true;
    }

    /** hold_for_admin_approval: no gate on the target, an approval remembered, or an administrator's answer. */
    method HoldForAdminApproval(target: Target) returns (gate: Gate)
      requires Clean(log, permit)
      modifies `log, `permit
      ensures old(log) <= log && Times(log, AuthOk) <= 1 && Times(log, Denial) == 0 && Times(log, FailedAttempt) == 0
      ensures !gate.Failing? ==> Clean(log, permit)
      ensures gate.Open? ==> |log| > |old(log)| && log[|log| - 1] == Passed(target)
      ensures !early ==> permit == old(permit)
    {
      var gated, exhausted, ok, answered, approved: bool := *, *, *, *, *;
      if !ok {
        return Failing;
      }
      if gated {
        if exhausted {
          return Shut;
        }
        ok := NotifyAwaiting();
        if !ok || !answered {
          return Failing;
        }
        if !approved {
          return Shut;
        }
      }
      Emit(Passed(target));
      return Open;
    }

    /** What follows an authorisation, for users and tickets alike: the gate, then the success message. */
    method Admit(target: Target, ticket: bool) returns (outcome: Outcome)
      requires Clean(log, permit) && |log| > 0 && log[|log| - 1] == Authorized(target)
      requires ticket || (|log| > 1 && log[|log| - 2] == SawAccepted)
      modifies `log, `permit
      ensures Told(log, outcome, ticket, 0) && !outcome.Unfinished? && (outcome.Approved? ==> outcome.target == target)
      ensures outcome.NotApproved? && !early && old(permit) ==> Times(log, AuthOk) == 0
    {
      ghost var before := log;
      var gate := HoldForAdminApproval(target);
      if gate.Failing? {
        return Error;
      }
      if gate.Shut? {
        outcome := Refuse(ticket, 0);
        return;
      }
      assert log[|before| - 1] == before[|before| - 1];
      assert !ticket ==> log[|before| - 2] == before[|before| - 2];
      assert VettedAt(log, ticket, target, |before| - 1, |log| - 1);
      if permit {
        ghost var passed := log;
        var ok := SendAuthOk();
        if !ok {
          return Error;
        }
        VettedStays(passed, ticket, target, AuthOk);
      }
      return Approved(target);
    }

    /** The verdict was Accepted: read the identity, authorise the target, pass the gate. */
    method Accept(turn: Turn) returns (outcome: Outcome)
      requires Clean(log, permit) && turn.Accepted?
      modifies `log, `permit
      ensures Told(log, outcome, false, One(Fault(turn))) && !outcome.Unfinished?
      ensures outcome.Approved? ==> turn.authorized == Answered(Some(outcome.target)) && log[|log| - 1] == Cleared
      ensures outcome.NotApproved? && !early && old(permit) ==> Times(log, AuthOk) == 0
    {
      Emit(SawAccepted);
      if !turn.identity {
        outcome := Refuse(false, 0);
      } else if turn.authorized.Broken? {
        outcome := Error;
      } else if turn.authorized.value.None? {
        outcome := RecordAndRefuse();
      } else {
        var target := turn.authorized.value.value;
        Emit(Authorized(target));
        outcome := Admit(target, false);
        if outcome.Approved? {
          ClearAttempts(outcome);
        }
      }
    }

    /** clear_failed_attempts, after an approval. */
    method ClearAttempts(ghost outcome: Outcome)
      requires outcome.Approved? && Told(log, outcome, false, 0)
      modifies `log
      ensures Told(log, outcome, false, 0) && |log| > 0 && log[|log| - 1] == Cleared
    {
      VettedStays(log, false, outcome.target, Cleared);
      Emit(Cleared);
    }

    /** A password is asked for once; `None` means the login goes on. */
    method AskPassword(turn: Turn) returns (done: Option<Outcome>)
      requires Clean(log, permit) && turn.Need? && Password in turn.kinds
      modifies `log
      ensures done.None? ==> Clean(log, permit) && GoesOn(turn)
      ensures done.Some? ==> Told(log, done.value, false, One(Fault(turn))) && !done.value.Unfinished? && !done.value.Approved?
      ensures Times(log, AuthOk) == Times(old(log), AuthOk)
    {
      if turn.password.Broken? {
        return Some(Error);
      }
      if turn.password.value.None? {
        var outcome := Refuse(false, 0);
        return Some(outcome);
      }
      Emit(PasswordPrompt);
      if !turn.password.value.value {
        var outcome := RecordAndRefuse();
        return Some(outcome);
      }
      return None;
    }

    /** Approval on the web: a protocol that cannot ask for it denies before anything was sent. */
    method AskOnWeb(turn: Turn) returns (done: Option<Outcome>)
      requires Clean(log, permit) && turn.Need? && Password !in turn.kinds && WebUserApproval in turn.kinds
      modifies `log, `permit
      ensures done.None? ==> Clean(log, permit) && GoesOn(turn)
      ensures done.Some? ==> Told(log, done.value, false, 0) && !done.value.Unfinished? && !done.value.Approved?
      ensures !web ==> permit == old(permit) && Times(log, AuthOk) == Times(old(log), AuthOk)
    {
      if turn.web.bypassed.Broken? {
        return Some(Error);
      }
      if turn.web.bypassed.value {
        return None;
      }
      if !web {
        var outcome := Refuse(false, 0);
        return Some(outcome);
      }
      if !turn.web.url {
        var outcome := Refuse(false, 0);
        return Some(Error);
      }
      done := PromptOnWeb(turn.web);
    }

    /** The success message, if it is still to be sent, goes before the prompt. */
    method PromptOnWeb(answers: Web) returns (done: Option<Outcome>)
      requires Clean(log, permit)
      modifies `log, `permit
      ensures done.None? ==> Clean(log, permit) && answers.accepted
      ensures done.Some? ==> Told(log, done.value, false, 0) && !done.value.Unfinished? && !done.value.Approved?
    {
      if permit {
        var ok := SendAuthOk();
        if !ok {
          return Some(Error);
        }
      }
      if answers.shown.Broken? {
        return Some(Error);
      }
      if answers.shown.value {
        Emit(WebPrompt);
      }
      if !answers.shown.value || !answers.accepted {
        var outcome := Refuse(false, 0);
        return Some(outcome);
      }
      return None;
    }

    /** One turn of the loop. */
    method Take(turn: Turn) returns (done: Option<Outcome>)
      requires Clean(log, permit) && (!web ==> permit)
      modifies `log, `permit
      ensures done.None? ==> Clean(log, permit) && (!web ==> permit) && GoesOn(turn)
      ensures done.Some? ==> Told(log, done.value, false, One(Fault(turn))) && !done.value.Unfinished?
      ensures done.Some? && done.value.Approved? ==>
                turn.Accepted? && turn.authorized == Answered(Some(done.value.target)) && log[|log| - 1] == Cleared
      ensures done == Some(NotApproved) && !web && !early ==> Times(log, AuthOk) == 0
    {
      var outcome;
      match turn {
        case Accepted(_, _) =>
          outcome := Accept(turn);
        case Need(kinds, _, _) =>
          if Password in kinds {
            done := AskPassword(turn);
            return;
          } else if WebUserApproval in kinds {
            done := AskOnWeb(turn);
            return;
          }
          outcome := Refuse(false, 0);
        case Rejected =>
          outcome := RecordAndRefuse();
      }
      done := Some(outcome);
    }

    /** authorize_user: the lockout, the auth state, and then turn after turn; `ended` is the turn it ended in. */
    method AuthorizeUser(account: Account, turns: seq<Turn>) returns (outcome: Outcome, ended: nat)
      requires log == [] && permit
      modifies `log, `permit
      ensures Told(log, outcome, false, AttemptsFor(account, turns, ended))
      ensures outcome.Unfinished? <==> account.Known? && ended == |turns|
      ensures account.Known? ==> ended <= |turns| && forall i :: 0 <= i < ended ==> GoesOn(turns[i])
      ensures outcome.Approved? ==>
                && account.Known? && ended < |turns| && turns[ended].Accepted?
                && turns[ended].authorized == Answered(Some(outcome.target)) && log[|log| - 1] == Cleared
      ensures outcome.NotApproved? && !web && !early ==> Times(log, AuthOk) == 0
    {
      ended := 0;
      match account {
        case Unusable => return Error, 0;
        case Locked =>
          outcome := Refuse(false, 0);
          return;
        case Unknown =>
          // Resolving an unknown user records the attempt itself.
          RecordFailure();
          return Error, 0;
        case Known =>
      }
      while ended < |turns|
        invariant ended <= |turns| && Clean(log, permit) && (!web ==> permit)
        invariant forall i :: 0 <= i < ended ==> GoesOn(turns[i])
      {
        var done := Take(turns[ended]);
        if done.Some? {
          return done.value, ended;
        }
        ended := ended + 1;
      }
      return Unfinished, ended;
    }

    /** A ticket login: the ticket is spent, then the gate decides. */
    method AuthorizeTicket(spent: Answer<Option<Target>>) returns (outcome: Outcome)
      requires log == [] && permit
      modifies `log, `permit
      ensures Told(log, outcome, true, 0) && !outcome.Unfinished?
      ensures outcome.Approved? ==> spent == Answered(Some(outcome.target))
      ensures outcome.NotApproved? && !early ==> Times(log, AuthOk) == 0
    {
      if spent.Broken? {
        return Error;
      }
      if spent.value.None? {
        outcome := Refuse(true, 0);
        return;
      }
      Emit(Authorized(spent.value.value));
      outcome := Admit(spent.value.value, true);
    }

    /** run_db_authorization: the IP block first, then by user. */
    method RunAsUser(blocked: Answer<bool>, account: Account, turns: seq<Turn>) returns (outcome: Outcome, ended: nat)
      requires log == [] && permit
      modifies `log, `permit
      ensures Told(log, outcome, false, if blocked == Answered(false) then AttemptsFor(account, turns, ended) else 0)
      ensures outcome.Approved? ==> blocked == Answered(false) && ended < |turns| && turns[ended].Accepted?
      ensures outcome.NotApproved? && !web && !early ==> Times(log, AuthOk) == 0
    {
      ended := 0;
      if blocked.Broken? {
        outcome := Error;
      } else if blocked.value {
        outcome := Refuse(false, 0);
      } else {
        outcome, ended := AuthorizeUser(account, turns);
      }
    }

    /** run_db_authorization: the IP block first, then by ticket. */
    method RunAsTicket(blocked: Answer<bool>, spent: Answer<Option<Target>>) returns (outcome: Outcome)
      requires log == [] && permit
      modifies `log, `permit
      ensures Told(log, outcome, true, 0)
      ensures outcome.Approved? ==> blocked == Answered(false) && spent == Answered(Some(outcome.target))
      ensures outcome.NotApproved? && !early ==> Times(log, AuthOk) == 0
    {
      if blocked.Broken? {
        outcome := Error;
      } else if blocked.value {
        outcome := Refuse(true, 0);
      } else {
        outcome := AuthorizeTicket(spent);
      }
    }
  }
}
