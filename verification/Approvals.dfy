/**
 The approval-request table and the tickets that pay for its questions, as the
 SQL statements that any number of concurrent callers run against them.

 Every statement is one atomic step. A caller's place in the code it is running
 (which statement comes next, and what it has read so far) is its `Local`. Each
 step takes an oracle bit `ok`; a statement that fails changes nothing in the
 database and sends the caller down the error path the code has for it.

 `log` and `books` are history: no step reads them to decide what to do.
 */
module Approvals {
  import opened Prelude

  type Actor = nat
  type TicketId = nat
  type Time = int

  datatype Kind = Admin | User
  datatype Key = Key(session: nat, kind: Kind, target: nat)

  datatype Scope = Once | Target | AllTargets

  datatype Status = Pending | Approved | Rejected | TimedOut | Abandoned {
    predicate Unanswered() { this == TimedOut || this == Abandoned }
    predicate Decided() { this == Approved || this == Rejected }
  }

  datatype Row = Row(status: Status, started: Time, ticket: Option<TicketId>, scope: Option<Scope>, consumed: bool)

  /** The `number`-th time a key was asked: by the insert, or by a reopen. */
  datatype Ask = Ask(key: Key, number: nat)

  /** A row as a settling caller read it; `number` says which ask that was. */
  datatype Snapshot = Snapshot(key: Key, started: Time, ticket: Option<TicketId>, number: nat)

  /** The statement an upsert runs next. */
  datatype Point =
    | Refreshing                  // UPDATE .. WHERE status = pending
    | Probing                     // SELECT .. WHERE status is unanswered
    | Finding                     // SELECT the ticket
    | Spending                    // UPDATE tickets SET uses_left - 1 WHERE uses_left > 0
    | Reopening                   // UPDATE .. WHERE status is unanswered
    | Returning(failed: bool)     // give back the use of a reopen that lost
    | RefreshingExhausted         // the refresh after the ticket ran out
    | Inserting                   // INSERT

  datatype Local =
    | Idle
    | LoggingIn(login: Key)
    | Asking(key: Key, started: Time, at: Point, second: bool)
    | Settling(todo: seq<Snapshot>, to: Status, scope: Option<Scope>)
    | Repaying(ticket: TicketId, todo: seq<Snapshot>, to: Status, scope: Option<Scope>)

  /** The asks made so far: how many of each key, when each started, how each ended. */
  datatype Log = Log(asks: map<Key, nat>, stamps: map<Ask, Time>, outcome: map<Ask, Status>) {
    /** The latest ask of a key; number 0 means it was never asked. */
    function Latest(k: Key): Ask { Ask(k, Tally(asks, k)) }
  }

  /**
   Where ticket uses went. `supply` is what each ticket started with; `credit` holds
   the uses taken at login and not yet attached to a question; `kept` counts uses
   that admitted somebody, `lost` failed refunds, `unpaid` questions nobody paid for.
   */
  datatype Books = Books(
    supply: map<TicketId, int>,
    paid: set<Key>,
    credit: map<Key, TicketId>,
    kept: map<TicketId, nat>,
    lost: map<TicketId, nat>,
    unpaid: map<TicketId, nat>)

  /** The ticket behind each key's questions, if any. */
  type Tickets = map<Key, TicketId>

  datatype State = State(
    rows: map<Key, Row>,
    uses: map<TicketId, Option<int>>,
    ticketOf: Tickets,
    pc: map<Actor, Local>,
    log: Log,
    books: Books)

  datatype Step =
    | LoginFind(a: Actor, key: Key, ok: bool)
    | LoginSpend(a: Actor, ok: bool)
    | Begin(a: Actor, key: Key, started: Time)
    | Upsert(a: Actor, ok: bool)
    | Read(a: Actor, keys: seq<Key>, to: Status, scope: Option<Scope>)
    | Settle(a: Actor, ok: bool)
    | Repay(a: Actor, ok: bool)
    | MarkConsumed(key: Key)
    | AgeOut(cutoff: Time)
    | DeleteTicket(ticket: TicketId)

  function At(s: State, a: Actor): Local {
    if a in s.pc then s.pc[a] else Idle
  }

  function Goto(s: State, a: Actor, l: Local): State {
    s.(pc := s.pc[a := l])
  }

  function Ticket(tickets: Tickets, k: Key): Option<TicketId> {
    if k in tickets then Some(tickets[k]) else None
  }

  function TicketFor(s: State, k: Key): Option<TicketId> { Ticket(s.ticketOf, k) }

  predicate PendingAt(s: State, k: Key) { k in s.rows && s.rows[k].status == Pending }
  predicate UnansweredAt(s: State, k: Key) { k in s.rows && s.rows[k].status.Unanswered() }

  predicate Bounded(s: State, t: TicketId) { t in s.uses && s.uses[t].Some? }

  /** Ticket::refund_use: a no-op on a deleted or unlimited ticket. */
  function Refunded(s: State, t: TicketId): State {
    if Bounded(s, t) then s.(uses := s.uses[t := Some(s.uses[t].value + 1)]) else s
  }

  /** A refund that may fail; a failed one is only ever a lost use. */
  function TryRefund(s: State, t: TicketId, ok: bool): State {
    if ok then Refunded(s, t) else s.(books := s.books.(lost := Bump(s.books.lost, t)))
  }

  /** The decrement of Ticket::spend_use goes through only from a positive balance. */
  predicate CanSpend(s: State, t: TicketId) {
    Bounded(s, t) && s.uses[t].value > 0
  }

  function Spent(s: State, t: TicketId): State
    requires CanSpend(s, t)
  {
    s.(uses := s.uses[t := Some(s.uses[t].value - 1)])
  }

  function LogAsked(log: Log, k: Key, started: Time): Log {
    log.(asks := Bump(log.asks, k), stamps := log.stamps[Ask(k, Tally(log.asks, k) + 1) := started])
  }

  function LogSettled(log: Log, k: Key, to: Status): Log {
    log.(outcome := log.outcome[log.Latest(k) := to])
  }

  /** The row becomes a fresh pending question. */
  function Asked(s: State, k: Key, started: Time): State {
    s.(rows := s.rows[k := Row(Pending, started, TicketFor(s, k), None, false)],
       log := LogAsked(s.log, k, started))
  }

  /** An insert is paid for by the use taken at login, if that one is still unattached. */
  function Charged(s: State, k: Key): State {
    var b := s.books;
    if k in b.credit then s.(books := b.(credit := b.credit - {k}))
    else if k in s.ticketOf && Bounded(s, s.ticketOf[k]) then s.(books := b.(unpaid := Bump(b.unpaid, s.ticketOf[k])))
    else s
  }

  /** Where an upsert goes when there is no unanswered row to reopen. */
  function AfterNothingToReopen(l: Local): Local
    requires l.Asking?
  {
    if l.second then Idle else l.(at := Inserting)
  }

  function AfterExhaustion(l: Local): Local
    requires l.Asking?
  {
    if l.second then Idle else l.(at := RefreshingExhausted)
  }

  /** What the upsert's next statement does to the tables. */
  function UpsertEffect(s: State, l: Local, ok: bool): State
    requires l.Asking?
  {
    var k := l.key;
    var ticket := TicketFor(s, k);
    if l.at.Returning? then (if ticket.Some? then TryRefund(s, ticket.value, ok) else s)
    else if !ok then s
    else match l.at
      case Refreshing | RefreshingExhausted =>
        if PendingAt(s, k) then s.(rows := s.rows[k := s.rows[k].(ticket := ticket)]) else s
      case Spending =>
        if ticket.Some? && CanSpend(s, ticket.value) then Spent(s, ticket.value) else s
      case Reopening =>
        if UnansweredAt(s, k) then Asked(s, k, l.started) else s
      case Inserting =>
        if k !in s.rows then Asked(Charged(s, k), k, l.started) else s
      case _ => s
  }

  /** Where the upsert goes after that statement, from what the statement reported. */
  function UpsertNext(s: State, l: Local, ok: bool): Local
    requires l.Asking?
  {
    var k := l.key;
    var ticket := TicketFor(s, k);
    match l.at
    case Refreshing =>
      if !ok || PendingAt(s, k) then Idle else l.(at := if ticket.Some? then Probing else Reopening)
    case Probing =>
      if !ok then Idle else if UnansweredAt(s, k) then l.(at := Finding) else AfterNothingToReopen(l)
    case Finding =>
      if !ok then Idle
      else if ticket.None? || ticket.value !in s.uses then AfterExhaustion(l)
      else l.(at := if s.uses[ticket.value].None? then Reopening else Spending)
    case Spending =>
      if !ok then Idle
      else if ticket.Some? && CanSpend(s, ticket.value) then l.(at := Reopening)
      else AfterExhaustion(l)
    case Reopening =>
      if ok && UnansweredAt(s, k) then Idle
      else if ticket.Some? then l.(at := Returning(!ok))
      else if ok then AfterNothingToReopen(l) else Idle
    case Returning(failed) => if failed then Idle else AfterNothingToReopen(l)
    case RefreshingExhausted => Idle
    case Inserting => if ok && k in s.rows then l.(at := Refreshing, second := true) else Idle
  }

  /** The pending rows among `keys`, as one SELECT returns them. */
  function Snapshots(s: State, keys: seq<Key>): seq<Snapshot> {
    if keys == [] then []
    else
      var rest := Snapshots(s, keys[1..]);
      var k := keys[0];
      if PendingAt(s, k) then
        [Snapshot(k, s.rows[k].started, s.rows[k].ticket, Tally(s.log.asks, k))] + rest
      else rest
  }

  function Onward(todo: seq<Snapshot>, to: Status, scope: Option<Scope>): Local {
    if todo == [] then Idle else Settling(todo, to, scope)
  }

  /** The guard of settle's UPDATE: the same key, the same `started`, still pending. */
  predicate Wins(s: State, snap: Snapshot) {
    PendingAt(s, snap.key) && s.rows[snap.key].started == snap.started
  }

  function Settled(s: State, k: Key, to: Status, scope: Option<Scope>): State
    requires k in s.rows
  {
    s.(rows := s.rows[k := s.rows[k].(status := to, scope := scope)], log := LogSettled(s.log, k, to))
  }

  function Kept(s: State, t: TicketId): State {
    s.(books := s.books.(kept := Bump(s.books.kept, t)))
  }

  function SettleEffect(s: State, l: Local, ok: bool): State
    requires l.Settling? && l.todo != []
  {
    var snap := l.todo[0];
    if !ok || !Wins(s, snap) then s
    else
      var s' := Settled(s, snap.key, l.to, l.scope);
      if snap.ticket.Some? && l.to == Approved then Kept(s', snap.ticket.value) else s'
  }

  /** An approval keeps the spend; any other ending still has a use to give back. */
  function SettleNext(s: State, l: Local, ok: bool): Local
    requires l.Settling? && l.todo != []
  {
    var snap, rest := l.todo[0], l.todo[1..];
    if !ok then Idle
    else if Wins(s, snap) && snap.ticket.Some? && l.to != Approved then
      Repaying(snap.ticket.value, rest, l.to, l.scope)
    else Onward(rest, l.to, l.scope)
  }

  /** What the age-out deletes: old rows that are unanswered or already delivered. */
  function Aged(s: State, cutoff: Time): set<Key> {
    set k | k in s.rows && s.rows[k].started < cutoff && (s.rows[k].status.Unanswered() || s.rows[k].consumed)
  }

  /** A successful login with a bounded ticket takes one use for the key's first question. */
  function LoggedIn(s: State, k: Key, t: TicketId): State {
    if k in s.books.paid then Kept(s, t)
    else s.(books := s.books.(paid := s.books.paid + {k}, credit := s.books.credit[k := t]))
  }

  predicate Enabled(s: State, step: Step) {
    match step
    case LoginFind(a, k, _) => At(s, a).Idle? && k in s.ticketOf
    case LoginSpend(a, _) => At(s, a).LoggingIn? && At(s, a).login in s.ticketOf
    case Begin(a, _, _) => At(s, a).Idle?
    case Upsert(a, _) => At(s, a).Asking?
    case Read(a, _, to, scope) => At(s, a).Idle? && to != Pending
    case Settle(a, _) => At(s, a).Settling? && At(s, a).todo != []
    case Repay(a, _) => At(s, a).Repaying?
    case _ => true
  }

  function Next(s: State, step: Step): State
    requires Enabled(s, step)
  {
    match step
    case LoginFind(a, k, ok) =>
      if ok && Bounded(s, s.ticketOf[k]) then Goto(s, a, LoggingIn(k)) else s
    case LoginSpend(a, ok) =>
      var k := At(s, a).login;
      var t := s.ticketOf[k];
      if ok && CanSpend(s, t) then Goto(LoggedIn(Spent(s, t), k, t), a, Idle) else Goto(s, a, Idle)
    case Begin(a, k, started) => Goto(s, a, Asking(k, started, Refreshing, false))
    case Upsert(a, ok) => Goto(UpsertEffect(s, At(s, a), ok), a, UpsertNext(s, At(s, a), ok))
    case Read(a, keys, to, scope) => Goto(s, a, Onward(Snapshots(s, keys), to, scope))
    case Settle(a, ok) => Goto(SettleEffect(s, At(s, a), ok), a, SettleNext(s, At(s, a), ok))
    case Repay(a, ok) =>
      var l := At(s, a);
      Goto(TryRefund(s, l.ticket, ok), a, Onward(l.todo, l.to, l.scope))
    case MarkConsumed(k) =>
      if k in s.rows then s.(rows := s.rows[k := s.rows[k].(consumed := true)]) else s
    case AgeOut(cutoff) => s.(rows := s.rows - Aged(s, cutoff))
    case DeleteTicket(t) => s.(uses := s.uses - {t})
  }

  /** Whose statement it is, if it moves a caller on. */
  function Actors(step: Step): set<Actor> {
    match step
    case LoginFind(a, _, _) => {a}
    case LoginSpend(a, _) => {a}
    case Begin(a, _, _) => {a}
    case Upsert(a, _) => {a}
    case Read(a, _, _, _) => {a}
    case Settle(a, _) => {a}
    case Repay(a, _) => {a}
    case _ => {}
  }

  /** The ask this step makes, if it makes one. */
  function AskMade(s: State, step: Step): Option<Ask>
    requires Enabled(s, step)
  {
    if step.Upsert? && step.ok then
      var l := At(s, step.a);
      if (l.at == Reopening && UnansweredAt(s, l.key)) || (l.at == Inserting && l.key !in s.rows)
      then Some(Ask(l.key, Tally(s.log.asks, l.key) + 1)) else None
    else None
  }

  /** The ask this step settles, if it settles one. */
  function AskSettled(s: State, step: Step): Option<Ask>
    requires Enabled(s, step)
  {
    if step.Settle? && step.ok && Wins(s, At(s, step.a).todo[0])
    then Some(s.log.Latest(At(s, step.a).todo[0].key))
    else None
  }

  /** A key asks with a bounded ticket only after a login spent a use of it. */
  predicate MayAsk(s: State, k: Key) {
    k in s.ticketOf && Bounded(s, s.ticketOf[k]) ==> k in s.books.paid
  }

  /** What the callers of the table promise: a ticketed key logs in first, and only a decided row is marked consumed. */
  predicate Orderly(s: State, step: Step)
    requires Enabled(s, step)
  {
    && (AskMade(s, step).Some? ==> MayAsk(s, AskMade(s, step).value.key))
    && (step.MarkConsumed? && step.key in s.rows ==> s.rows[step.key].status.Decided())
  }

  predicate Fresh(log: Log, k: Key, started: Time) {
    forall ask :: ask in log.stamps && ask.key == k ==> log.stamps[ask] != started
  }

  /** The step's ask, if it makes one, carries a `started` no earlier ask of its key carried. */
  predicate FreshAsk(s: State, step: Step)
    requires Enabled(s, step)
  {
    AskMade(s, step).Some? ==> Fresh(s.log, At(s, step.a).key, At(s, step.a).started)
  }

  predicate Initial(s: State) {
    && s.rows == map[] && s.pc == map[] && s.log == Log(map[], map[], map[])
    && s.books == Books(s.books.supply, {}, map[], map[], map[], map[])
    && s.books.supply.Keys == s.uses.Keys
    && forall t :: t in s.uses && s.uses[t].Some? ==> s.books.supply[t] == s.uses[t].value >= 0
  }

  /** `steps` is a run from `s`, interleaving any number of orderly callers. */
  predicate Run(s: State, steps: seq<Step>)
    decreases |steps|
  {
    steps == [] || (Enabled(s, steps[0]) && Orderly(s, steps[0]) && Run(Next(s, steps[0]), steps[1..]))
  }

  function Exec(s: State, steps: seq<Step>): State
    requires Run(s, steps)
    decreases |steps|
  {
    if steps == [] then s else Exec(Next(s, steps[0]), steps[1..])
  }

  /** No ask of the run reuses the `started` of an earlier ask of its key. */
  predicate FreshRun(s: State, steps: seq<Step>)
    requires Run(s, steps)
    decreases |steps|
  {
    steps == [] || (FreshAsk(s, steps[0]) && FreshRun(Next(s, steps[0]), steps[1..]))
  }

  lemma RunFrom(s: State, step: Step, rest: seq<Step>)
    requires Enabled(s, step) && Orderly(s, step) && Run(Next(s, step), rest)
    ensures Run(s, [step] + rest) && Exec(s, [step] + rest) == Exec(Next(s, step), rest)
  {
    assert ([step] + rest)[1..] == rest;
  }

  lemma {:induction false} RunThen(s: State, first: seq<Step>, second: seq<Step>)
    requires Run(s, first) && Run(Exec(s, first), second)
    ensures Run(s, first + second) && Exec(s, first + second) == Exec(Exec(s, first), second)
    decreases |first|
  {
    if first == [] {
      assert first + second == second;
    } else {
      RunThen(Next(s, first[0]), first[1..], second);
      assert (first + second)[1..] == first[1..] + second;
    }
  }
}
