/**
 Ticket requests: users ask, admins approve or deny, and the user activates an approved
 request into a ticket. Approval, denial and activation each read first and write later,
 so all of them race; the guarded UPDATE of an activation is the only arbiter.
 */
module Activation {
  import opened Prelude

  type RequestId = nat
  type TicketId = nat
  type User = nat
  type Actor = nat

  datatype Status = Pending | Approved | Denied

  datatype Request = Request(user: User, status: Status, duration: Option<int>, ticket: Option<TicketId>)

  /** `lifetime` is the time to expiry the ticket is issued with. */
  datatype Ticket = Ticket(user: User, lifetime: Option<int>)

  /** What an activation read and decided before it writes. */
  datatype Prepared = Prepared(request: RequestId, user: User, requested: Option<int>, cap: Option<int>, lifetime: Option<int>)

  datatype Local = Idle | Resolving(request: RequestId, status: Status) | Activating(plan: Prepared)

  /** What a ticket was minted from; history. */
  datatype Mint = Mint(request: RequestId, user: User, requested: Option<int>, cap: Option<int>)

  /** `asked` (all requests ever), `mints` and `issued` (an admin's tickets) are history. */
  datatype State = State(
    requests: map<RequestId, Request>,
    tickets: map<TicketId, Ticket>,
    asked: map<RequestId, Option<int>>,
    mints: map<TicketId, Mint>,
    issued: set<TicketId>,
    pc: map<Actor, Local>)

  datatype Step =
    | Create(request: RequestId, user: User, wanted: Option<int>, cap: Option<int>)
    | AutoApprove(request: RequestId, user: User, wanted: Option<int>, cap: Option<int>, made: TicketId)
    | Issue(made: TicketId, user: User, lifetime: Option<int>)
    | ReadPending(who: Actor, request: RequestId, status: Status)
    | Resolve(who: Actor)
    | Prepare(who: Actor, request: RequestId, user: User, cap: Option<int>)
    | Commit(who: Actor, made: TicketId)
    | Abort(who: Actor)
    | DeleteTicket(ticket: TicketId)
    | DropRequests(gone: set<RequestId>)

  const MIN_DURATION := 60

  /** The checks on a requested duration; none asked for means the longest allowed. */
  function Granted(wanted: Option<int>, cap: Option<int>): Option<Option<int>> {
    match wanted
    case None => Some(cap)
    case Some(d) => if d < MIN_DURATION || (cap.Some? && d > cap.value) then None else Some(wanted)
  }

  /** The re-capping at activation. */
  function Recapped(requested: Option<int>, cap: Option<int>): Option<int> {
    match (requested, cap)
    case (Some(d), Some(max)) => if d < max then requested else cap
    case (Some(d), None) => requested
    case (None, _) => cap
  }

  /** `d` is a limit at most `limit`, if there is a limit. */
  predicate Within(d: Option<int>, limit: Option<int>) {
    limit.Some? ==> d.Some? && d.value <= limit.value
  }

  function At(s: State, a: Actor): Local {
    if a in s.pc then s.pc[a] else Idle
  }

  function Goto(s: State, a: Actor, l: Local): State {
    s.(pc := s.pc[a := l])
  }

  predicate NewTicket(s: State, t: TicketId) {
    t !in s.tickets && t !in s.mints && t !in s.issued
  }

  /** WHERE id = ? AND user_id = ? AND status = 'approved' AND ticket_id IS NULL. */
  predicate Claimable(s: State, plan: Prepared) {
    Ready(s, plan.request, plan.user)
  }

  function Minted(s: State, t: TicketId, plan: Prepared): State {
    s.(tickets := s.tickets[t := Ticket(plan.user, plan.lifetime)],
       mints := s.mints[t := Mint(plan.request, plan.user, plan.requested, plan.cap)])
  }

  /** The activation's transaction: one that claims nothing rolls back. */
  function Committed(s: State, t: TicketId, plan: Prepared): State {
    if Claimable(s, plan)
    then Minted(s.(requests := s.requests[plan.request := s.requests[plan.request].(ticket := Some(t))]), t, plan)
    else s
  }

  function Added(s: State, r: RequestId, row: Request): State {
    s.(requests := s.requests[r := row], asked := s.asked[r := row.duration])
  }

  predicate ApprovedFor(s: State, r: RequestId, user: User) {
    r in s.requests && s.requests[r].user == user && s.requests[r].status == Approved
  }

  /** What `prepare_activation` gets past its checks with. */
  predicate Ready(s: State, r: RequestId, user: User) {
    ApprovedFor(s, r, user) && s.requests[r].ticket.None?
  }

  predicate Enabled(s: State, step: Step) {
    match step
    case Create(r, user, wanted, cap) => r !in s.asked && Granted(wanted, cap).Some?
    case AutoApprove(r, user, wanted, cap, t) => r !in s.asked && Granted(wanted, cap).Some? && NewTicket(s, t)
    case Issue(t, user, lifetime) => NewTicket(s, t)
    case ReadPending(a, r, status) => At(s, a).Idle? && r in s.requests && s.requests[r].status == Pending && status != Pending
    case Resolve(a) => At(s, a).Resolving?
    case Prepare(a, r, user, cap) => At(s, a).Idle? && Ready(s, r, user)
    case Commit(a, t) => At(s, a).Activating? && NewTicket(s, t)
    case Abort(a) => true
    case DeleteTicket(t) => true
    case DropRequests(gone) => true
  }

  function Next(s: State, step: Step): State
    requires Enabled(s, step)
  {
    match step
    case Create(r, user, wanted, cap) => Added(s, r, Request(user, Pending, Granted(wanted, cap).value, None))
    case AutoApprove(r, user, wanted, cap, t) =>
      var d := Granted(wanted, cap).value;
      Minted(Added(s, r, Request(user, Approved, d, Some(t))), t, Prepared(r, user, d, cap, d))
    case Issue(t, user, lifetime) => s.(tickets := s.tickets[t := Ticket(user, lifetime)], issued := s.issued + {t})
    case ReadPending(a, r, status) => Goto(s, a, Resolving(r, status))
    // An update by primary key: it writes whatever the row has become meanwhile.
    case Resolve(a) =>
      var l := At(s, a);
      Goto(if l.request in s.requests then s.(requests := s.requests[l.request := s.requests[l.request].(status := l.status)]) else s, a, Idle)
    case Prepare(a, r, user, cap) =>
      var requested := s.requests[r].duration;
      Goto(s, a, Activating(Prepared(r, user, requested, cap, Recapped(requested, cap))))
    case Commit(a, t) => Goto(Committed(s, t, At(s, a).plan), a, Idle)
    case Abort(a) => Goto(s, a, Idle)
    // A ticket takes the request it came from with it.
    case DeleteTicket(t) =>
      s.(tickets := s.tickets - {t}, requests := map r | r in s.requests && s.requests[r].ticket != Some(t) :: s.requests[r])
    case DropRequests(gone) => s.(requests := s.requests - gone)
  }

  predicate Initial(s: State) {
    s == State(map[], map[], map[], map[], {}, map[])
  }

  ghost predicate Run(s: State, steps: seq<Step>)
    decreases |steps|
  {
    steps == [] || (Enabled(s, steps[0]) && Run(Next(s, steps[0]), steps[1..]))
  }

  ghost function Exec(s: State, steps: seq<Step>): State
    requires Run(s, steps)
    decreases |steps|
  {
    if steps == [] then s else Exec(Next(s, steps[0]), steps[1..])
  }

  // ----- What every run keeps -----

  /** A request remembers the ticket minted from it, for as long as the request exists. */
  ghost predicate Remembered(s: State) {
    forall t :: t in s.mints && s.mints[t].request in s.requests ==> s.requests[s.mints[t].request].ticket == Some(t)
  }

  /** The ticket a request names was minted from it. */
  ghost predicate Backed(s: State) {
    forall r :: r in s.requests && s.requests[r].ticket.Some? ==>
      s.requests[r].ticket.value in s.mints && s.mints[s.requests[r].ticket.value].request == r
  }

  ghost predicate OneEach(mints: map<TicketId, Mint>) {
    forall t, u :: t in mints && u in mints && mints[t].request == mints[u].request ==> t == u
  }

  /** Every ticket is an admin's, or was minted and keeps to its limits. */
  ghost predicate Accounted(s: State) {
    forall t :: t in s.tickets ==> t in s.issued || (t in s.mints && KeepsTo(s.tickets[t], s.mints[t]))
  }

  ghost predicate KeepsTo(ticket: Ticket, mint: Mint) {
    ticket.user == mint.user && Within(ticket.lifetime, mint.requested) && Within(ticket.lifetime, mint.cap)
  }

  ghost predicate PlanOk(asked: map<RequestId, Option<int>>, plan: Prepared) {
    && plan.request in asked && asked[plan.request] == plan.requested
    && Within(plan.lifetime, plan.requested) && Within(plan.lifetime, plan.cap)
  }

  ghost predicate RequestsAsked(asked: map<RequestId, Option<int>>, requests: map<RequestId, Request>) {
    forall r :: r in requests ==> r in asked && requests[r].duration == asked[r]
  }

  ghost predicate MintsAsked(asked: map<RequestId, Option<int>>, mints: map<TicketId, Mint>) {
    forall t :: t in mints ==> mints[t].request in asked && mints[t].requested == asked[mints[t].request]
  }

  ghost predicate PlansOk(asked: map<RequestId, Option<int>>, pc: map<Actor, Local>) {
    forall a :: a in pc && pc[a].Activating? ==> PlanOk(asked, pc[a].plan)
  }

  ghost predicate Asked(s: State) {
    RequestsAsked(s.asked, s.requests) && MintsAsked(s.asked, s.mints) && PlansOk(s.asked, s.pc)
  }

  ghost predicate Inv(s: State) {
    Remembered(s) && Backed(s) && OneEach(s.mints) && Accounted(s) && Asked(s)
  }

  lemma StepRequestsAsked(s: State, step: Step)
    requires Enabled(s, step) && RequestsAsked(s.asked, s.requests)
    ensures RequestsAsked(Next(s, step).asked, Next(s, step).requests)
  {}

  lemma StepMintsAsked(s: State, step: Step)
    requires Enabled(s, step) && MintsAsked(s.asked, s.mints) && PlansOk(s.asked, s.pc)
    ensures MintsAsked(Next(s, step).asked, Next(s, step).mints)
  {}

  lemma StepPlansOk(s: State, step: Step)
    requires Enabled(s, step) && PlansOk(s.asked, s.pc) && RequestsAsked(s.asked, s.requests)
    ensures PlansOk(Next(s, step).asked, Next(s, step).pc)
  {}

  lemma StepAsked(s: State, step: Step)
    requires Enabled(s, step) && Asked(s)
    ensures Asked(Next(s, step))
  {
    StepRequestsAsked(s, step);
    StepMintsAsked(s, step);
    StepPlansOk(s, step);
  }

  lemma StepRemembered(s: State, step: Step)
    requires Enabled(s, step) && Remembered(s) && Asked(s)
    ensures Remembered(Next(s, step))
  {}

  lemma StepBacked(s: State, step: Step)
    requires Enabled(s, step) && Backed(s)
    ensures Backed(Next(s, step))
  {}

  lemma StepOneEach(s: State, step: Step)
    requires Enabled(s, step) && Remembered(s) && OneEach(s.mints) && Asked(s)
    ensures OneEach(Next(s, step).mints)
  {}

  lemma StepAccounted(s: State, step: Step)
    requires Enabled(s, step) && Accounted(s) && Asked(s)
    ensures Accounted(Next(s, step))
  {}

  lemma StepInv(s: State, step: Step)
    requires Enabled(s, step) && Inv(s)
    ensures Inv(Next(s, step))
  {
    StepAsked(s, step);
    StepRemembered(s, step);
    StepBacked(s, step);
    StepOneEach(s, step);
    StepAccounted(s, step);
  }

  lemma {:induction false} RunInv(s: State, steps: seq<Step>)
    requires Inv(s) && Run(s, steps)
    ensures Inv(Exec(s, steps))
    decreases |steps|
  {
    if steps != [] {
      StepInv(s, steps[0]);
      RunInv(Next(s, steps[0]), steps[1..]);
    }
  }

  /** A request mints at most one ticket over its whole life. */
  lemma AtMostOneTicketPerRequest(s: State, steps: seq<Step>, t: TicketId, u: TicketId)
    requires Initial(s) && Run(s, steps) && t in Exec(s, steps).mints && u in Exec(s, steps).mints && t != u
    ensures Exec(s, steps).mints[t].request != Exec(s, steps).mints[u].request
  {
    RunInv(s, steps);
  }

  /** Losers leave no ticket behind, and a minted ticket lives no longer than asked for and allowed. */
  lemma TicketsKeepTheirLimits(s: State, steps: seq<Step>, t: TicketId)
    requires Initial(s) && Run(s, steps) && t in Exec(s, steps).tickets && t !in Exec(s, steps).issued
    ensures t in Exec(s, steps).mints && Exec(s, steps).mints[t].request in Exec(s, steps).asked
    ensures Exec(s, steps).tickets[t].user == Exec(s, steps).mints[t].user
    ensures Within(Exec(s, steps).tickets[t].lifetime, Exec(s, steps).asked[Exec(s, steps).mints[t].request])
    ensures Within(Exec(s, steps).tickets[t].lifetime, Exec(s, steps).mints[t].cap)
  {
    RunInv(s, steps);
  }

  // ----- The call -----

  datatype Outcome = Activated(ticket: TicketId) | NotFound | AlreadyActivated | TargetGone | Internal

  predicate By(step: Step, me: Actor) {
    (step.ReadPending? || step.Resolve? || step.Prepare? || step.Commit? || step.Abort?) && step.who == me
  }

  ghost predicate Others(a: State, b: State, me: Actor) {
    exists steps :: Run(a, steps) && Exec(a, steps) == b && forall i :: 0 <= i < |steps| ==> !By(steps[i], me)
  }

  /** History is only ever added to. */
  ghost predicate Later(a: State, b: State) {
    forall t :: t in a.mints ==> t in b.mints && b.mints[t] == a.mints[t]
  }

  lemma OtherStep(s: State, step: Step, me: Actor)
    requires Enabled(s, step) && !By(step, me)
    ensures At(Next(s, step), me) == At(s, me) && Later(s, Next(s, step))
  {}

  lemma {:induction false} OthersLater(a: State, steps: seq<Step>, me: Actor)
    requires Run(a, steps) && forall i :: 0 <= i < |steps| ==> !By(steps[i], me)
    ensures At(Exec(a, steps), me) == At(a, me) && Later(a, Exec(a, steps))
    decreases |steps|
  {
    if steps != [] {
      assert !By(steps[0], me);
      OtherStep(a, steps[0], me);
      OthersLater(Next(a, steps[0]), steps[1..], me);
    }
  }

  lemma {:induction false} RunThen(s: State, first: seq<Step>, rest: seq<Step>)
    requires Run(s, first) && Run(Exec(s, first), rest)
    ensures Run(s, first + rest) && Exec(s, first + rest) == Exec(Exec(s, first), rest)
    decreases |first|
  {
    if first == [] {
      assert first + rest == rest;
    } else {
      RunThen(Next(s, first[0]), first[1..], rest);
      assert (first + rest)[1..] == first[1..] + rest;
    }
  }

  class Desk {
    var st: State
    const me: Actor
    ghost const origin: State
    ghost var trace: seq<Step>
    /** The tickets this caller's own activations minted. */
    ghost var mine: set<TicketId>

    constructor (st: State, me: Actor)
      requires Initial(st)
      ensures Valid() && this.st == st && this.me == me && mine == {}
    {
      this.st, this.me, origin, trace, mine := st, me, st, [], {};
    }

    ghost predicate Valid()
      reads this
    {
      && Initial(origin) && Run(origin, trace) && Exec(origin, trace) == st
      && forall t :: t in mine ==> t in st.mints
    }

    method Interfere()
      modifies `st
      ensures Others(old(st), st, me)
    {
      assert Run(st, []) && Exec(st, []) == st;
    }

    method Wait()
      requires Valid()
      modifies `st, `trace
      ensures Valid() && At(st, me) == old(At(st, me)) && Later(old(st), st)
    {
      Interfere();
      ghost var steps :| Run(old(st), steps) && Exec(old(st), steps) == st && forall i :: 0 <= i < |steps| ==> !By(steps[i], me);
      OthersLater(old(st), steps, me);
      RunThen(origin, trace, steps);
      trace := trace + steps;
    }

    method Do(step: Step)
      requires Valid() && Enabled(st, step)
      modifies `st, `trace
      ensures Valid() && st == Next(old(st), step) && Later(old(st), st)
    {
      assert [step][1..] == [];
      RunThen(origin, trace, [step]);
      trace := trace + [step];
      st := Next(st, step);
    }

    /** prepare_activation: the request, then the target and the policy; nothing is written. */
    method PrepareActivation(request: RequestId, user: User) returns (failure: Option<Outcome>)
      requires Valid() && At(st, me).Idle?
      modifies `st, `trace
      ensures Valid() && st.mints == old(st).mints
      ensures failure.None? ==>
                && Ready(old(st), request, user) && At(st, me).Activating?
                && At(st, me).plan.request == request && At(st, me).plan.user == user
                && At(st, me).plan.lifetime == Recapped(old(st).requests[request].duration, At(st, me).plan.cap)
      ensures failure.Some? ==> At(st, me).Idle? && !failure.value.Activated?
      ensures failure == Some(NotFound) ==> !ApprovedFor(old(st), request, user)
      ensures failure == Some(AlreadyActivated) ==> ApprovedFor(old(st), request, user) && !Ready(old(st), request, user)
      ensures failure == Some(TargetGone) ==> Ready(old(st), request, user)
    {
      var ok: bool, targetExists: bool, cap: Option<int> := *, *, *;
      if !ok {
        return Some(Internal);
      }
      if !ApprovedFor(st, request, user) {
        return Some(NotFound);
      }
      if st.requests[request].ticket.Some? {
        return Some(AlreadyActivated);
      }
      if !targetExists {
        return Some(TargetGone);
      }
      Do(Prepare(me, request, user, cap));
      return None;
    }

    /** commit_activation: only the call whose UPDATE claimed the request keeps its ticket. */
    method CommitActivation() returns (outcome: Outcome)
      requires Valid() && At(st, me).Activating?
      modifies `st, `trace, `mine
      ensures Valid() && At(st, me).Idle?
      ensures outcome.Activated? ==>
                && mine == old(mine) + {outcome.ticket} && outcome.ticket !in old(st).mints && outcome.ticket in st.mints
                && st.mints[outcome.ticket] == old(var plan := At(st, me).plan; Mint(plan.request, plan.user, plan.requested, plan.cap))
      ensures !outcome.Activated? ==> mine == old(mine)
      ensures outcome.AlreadyActivated? ==> exists t :: t in st.mints && st.mints[t].request == old(At(st, me).plan.request)
      ensures outcome.NotFound? ==> old(At(st, me).plan.request) !in st.requests || st.requests[old(At(st, me).plan.request)].ticket.None?
    {
      var plan := At(st, me).plan;
      var ok: bool, t: TicketId := *, *;
      if !ok || !NewTicket(st, t) {
        Do(Abort(me));
        return Internal;
      }
      var claimed := Claimable(st, plan);
      Do(Commit(me, t));
      if claimed {
        mine := mine + {t};
        return Activated(t);
      }
      Wait();
      RunInv(origin, trace);
      ok := *;
      return if !ok then Internal else if plan.request in st.requests && st.requests[plan.request].ticket.Some? then AlreadyActivated else NotFound;
    }

    /** activate_ticket_request: it mints one ticket, for this user's request, and says so; or none. */
    method Activate(request: RequestId, user: User) returns (outcome: Outcome)
      requires Valid() && At(st, me).Idle?
      modifies `st, `trace, `mine
      ensures Valid() && At(st, me).Idle?
      ensures outcome.Activated? ==>
                && mine == old(mine) + {outcome.ticket} && outcome.ticket !in old(mine) && outcome.ticket in st.mints
                && st.mints[outcome.ticket].request == request && st.mints[outcome.ticket].user == user
      ensures !outcome.Activated? ==> mine == old(mine)
      ensures outcome.AlreadyActivated? ==> exists t :: t in st.mints && st.mints[t].request == request
    {
      RunInv(origin, trace);
      var failure := PrepareActivation(request, user);
      if failure.Some? {
        return failure.value;
      }
      Wait();
      outcome := CommitActivation();
    }
  }
}
