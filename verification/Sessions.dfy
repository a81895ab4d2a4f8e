/**
 User sessions, the target sessions they own, and the tickets that admit them: one
 step per transaction or statement, taken by any number of actors in any order.
 */
module Sessions {
  import opened Prelude

  type SessionId = nat
  type RowId = nat
  type Target = nat
  type TicketId = nat
  type Node = nat
  type Actor = nat
  type Process = nat

  /** A user_sessions row: whether it has ended, and the node it is bound to. */
  datatype UserSession = UserSession(ended: bool, node: Option<Node>)

  /** A target_sessions row; the ticket column is nulled when the ticket is deleted. */
  datatype TargetSession = TargetSession(parent: SessionId, target: Target, ended: bool, ticket: Option<TicketId>)

  /**
   Where an actor is in closing sessions. `held` are the ids it answers for;
   `batch` the ones of the current attempt; `todo` those of them it read as open.
   */
  datatype Local =
    | Idle
    | Holding(home: Process, sweeping: bool, held: set<SessionId>)
    | Closing(home: Process, sweeping: bool, held: set<SessionId>, batch: set<SessionId>, todo: set<SessionId>)
    | Reaping(todo: set<SessionId>)
  {
    function Held(): (ids: set<SessionId>)
    {
      if Holding? || Closing? then held else {}
    }
  }

  type Users = map<SessionId, UserSession>
  type Targets = map<RowId, TargetSession>

  /** `gone` and `via` are history: the deleted tickets, and the ticket each row was created under. */
  datatype State = State(
    users: Users,
    targets: Targets,
    tickets: set<TicketId>,
    gone: set<TicketId>,
    via: map<RowId, TicketId>,
    queue: map<Process, set<SessionId>>,
    pc: map<Actor, Local>)

  datatype Step =
    | Register(sid: SessionId, node: Option<Node>)
    | Issue(ticket: TicketId)
    | Open(row: RowId, sid: SessionId, target: Target, admission: Option<TicketId>, unexpired: bool)
    | End(sid: SessionId)
    | EndChildren
    | Delete(who: Actor, at: Process, tickets: set<TicketId>)
    | Collect(who: Actor, at: Process, tickets: set<TicketId>)
    | Take(who: Actor, at: Process)
    | Start(who: Actor, batch: set<SessionId>)
    | Revoke(who: Actor, sid: SessionId)
    | Finish(who: Actor)
    | Fail(who: Actor, requeue: bool)
    | SelectOpen(who: Actor, ids: set<SessionId>)

  predicate IsOpen(users: Users, sid: SessionId) {
    sid in users && !users[sid].ended
  }

  function OpenAmong(users: Users, ids: set<SessionId>): set<SessionId> {
    set sid | sid in ids && IsOpen(users, sid)
  }

  function At(s: State, a: Actor): Local {
    if a in s.pc then s.pc[a] else Idle
  }

  function QueueAt(s: State, p: Process): set<SessionId> {
    if p in s.queue then s.queue[p] else {}
  }

  function Goto(s: State, a: Actor, l: Local): State {
    s.(pc := s.pc[a := l])
  }

  predicate HasRow(targets: Targets, sid: SessionId, target: Target) {
    exists r :: r in targets && targets[r].parent == sid && targets[r].target == target
  }

  predicate Admits(s: State, admission: Option<TicketId>, unexpired: bool) {
    admission.Some? ==> admission.value in s.tickets && unexpired
  }

  /** open_or_lookup gets past its two checks. */
  predicate OpenAllowed(s: State, sid: SessionId, admission: Option<TicketId>, unexpired: bool) {
    IsOpen(s.users, sid) && Admits(s, admission, unexpired)
  }

  function Inserted(s: State, r: RowId, sid: SessionId, target: Target, admission: Option<TicketId>): State {
    s.(targets := s.targets[r := TargetSession(sid, target, false, admission)],
       via := if admission.Some? then s.via[r := admission.value] else s.via)
  }

  function Opened(s: State, r: RowId, sid: SessionId, target: Target, admission: Option<TicketId>, unexpired: bool): State {
    if OpenAllowed(s, sid, admission, unexpired) && !HasRow(s.targets, sid, target)
    then Inserted(s, r, sid, target, admission)
    else s
  }

  /** mark_ended_in_transaction: nothing for a missing or ended session. */
  function UsersEnded(users: Users, sid: SessionId): Users {
    if IsOpen(users, sid) then users[sid := users[sid].(ended := true)] else users
  }

  function ChildrenEnded(users: Users, targets: Targets, sid: SessionId): Targets {
    if IsOpen(users, sid)
    then map r | r in targets :: if targets[r].parent == sid then targets[r].(ended := true) else targets[r]
    else targets
  }

  function Ended(s: State, sid: SessionId): State {
    s.(users := UsersEnded(s.users, sid), targets := ChildrenEnded(s.users, s.targets, sid))
  }

  /** end_children_of_ended_parents. */
  function Swept(users: Users, targets: Targets): Targets {
    map r | r in targets ::
      if targets[r].parent in users && users[targets[r].parent].ended then targets[r].(ended := true) else targets[r]
  }

  predicate AdmittedBy(row: TargetSession, tickets: set<TicketId>) {
    !row.ended && row.ticket.Some? && row.ticket.value in tickets
  }

  /** open_user_sessions_admitted_by_tickets. */
  function Admitted(targets: Targets, tickets: set<TicketId>): set<SessionId> {
    set r | r in targets && AdmittedBy(targets[r], tickets) :: targets[r].parent
  }

  /** The foreign key's SET NULL. */
  function Nulled(targets: Targets, tickets: set<TicketId>): Targets {
    map r | r in targets ::
      if targets[r].ticket.Some? && targets[r].ticket.value in tickets then targets[r].(ticket := None) else targets[r]
  }

  /** The transaction that deletes tickets, having collected whom they admitted. */
  function Deleted(s: State, a: Actor, p: Process, tickets: set<TicketId>): State {
    var found := tickets * s.tickets;
    Goto(s.(tickets := s.tickets - found, gone := s.gone + found, targets := Nulled(s.targets, found)),
         a, Holding(p, false, Admitted(s.targets, found)))
  }

  function Failed(s: State, a: Actor, requeue: bool): State
    requires At(s, a).Closing?
  {
    var l := At(s, a);
    if requeue
    then Goto(s.(queue := s.queue[l.home := QueueAt(s, l.home) + l.batch]), a, Holding(l.home, l.sweeping, l.held - l.batch))
    else Goto(s, a, Holding(l.home, l.sweeping, l.held))
  }

  /** An actor with nothing left to answer for. */
  predicate Free(l: Local) {
    l.Held() == {} && (l.Reaping? ==> l.todo == {})
  }

  predicate Enabled(s: State, step: Step) {
    match step
    case Register(sid, node) => sid !in s.users
    case Issue(t) => t !in s.tickets && t !in s.gone
    case Open(r, sid, target, admission, unexpired) => r !in s.targets && r !in s.via
    case End(sid) => true
    case EndChildren => true
    case Delete(a, p, tickets) => Free(At(s, a))
    case Collect(a, p, tickets) => Free(At(s, a))
    case Take(a, p) => Free(At(s, a))
    // A deleter closes all it holds at once; a sweep goes by chunks.
    case Start(a, batch) => At(s, a).Holding? && batch <= At(s, a).held && (!At(s, a).sweeping ==> batch == At(s, a).held)
    case Revoke(a, sid) => (At(s, a).Closing? || At(s, a).Reaping?) && sid in At(s, a).todo
    case Finish(a) => At(s, a).Closing? && At(s, a).todo == {}
    // A deleter queues what it could not close; a sweep queues single ids only.
    case Fail(a, requeue) =>
      || (At(s, a).Closing? && if At(s, a).sweeping then requeue ==> |At(s, a).batch| == 1 else requeue)
      || (At(s, a).Reaping? && !requeue)
    case SelectOpen(a, ids) => Free(At(s, a))
  }

  function Next(s: State, step: Step): State
    requires Enabled(s, step)
  {
    match step
    case Register(sid, node) => s.(users := s.users[sid := UserSession(false, node)])
    case Issue(t) => s.(tickets := s.tickets + {t})
    case Open(r, sid, target, admission, unexpired) => Opened(s, r, sid, target, admission, unexpired)
    case End(sid) => Ended(s, sid)
    case EndChildren => s.(targets := Swept(s.users, s.targets))
    case Delete(a, p, tickets) => Deleted(s, a, p, tickets)
    case Collect(a, p, tickets) => Goto(s, a, Holding(p, false, Admitted(s.targets, tickets * s.tickets)))
    case Take(a, p) => Goto(s.(queue := s.queue[p := {}]), a, Holding(p, true, QueueAt(s, p)))
    case Start(a, batch) =>
      var l := At(s, a);
      Goto(s, a, Closing(l.home, l.sweeping, l.held, batch, OpenAmong(s.users, batch)))
    case Revoke(a, sid) => var l := At(s, a); Goto(Ended(s, sid), a, l.(todo := l.todo - {sid}))
    case Finish(a) => var l := At(s, a); Goto(s, a, Holding(l.home, l.sweeping, l.held - l.batch))
    case Fail(a, requeue) => if At(s, a).Closing? then Failed(s, a, requeue) else Goto(s, a, Idle)
    case SelectOpen(a, ids) => Goto(s, a, Reaping(OpenAmong(s.users, ids)))
  }

  predicate Initial(s: State) {
    s.users == map[] && s.targets == map[] && s.tickets == {} && s.gone == {} && s.via == map[] && s.queue == map[] && s.pc == map[]
  }

  ghost predicate Run(s: State, steps: seq<Step>)
    decreases |steps|
  {
    steps == [] || (Enabled(s, steps[0]) && Run(Next(s, steps[0]), steps[1..]))
  }

  ghost function Exec(s: State, steps: seq<Step>): State
    requires Run(s, steps)
    decreases |steps|
  {
    if steps == [] then s else Exec(Next(s, steps[0]), steps[1..])
  }
}
