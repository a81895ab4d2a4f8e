/**
 Conservation of ticket uses. In every state of every run, each use a bounded
 ticket started with is in exactly one place: still on the ticket, held by a
 pending question, carried by a caller between two statements, taken at a login
 and not yet asked with, kept by an admission, or lost by a failed refund.
 */
module ApprovalLedger {
  import opened Prelude
  import opened Approvals
  import opened ApprovalOutcomes

  /** A pending row holds one use of its ticket. */
  function Holding(t: TicketId): Row -> bool {
    (row: Row) => row.status == Pending && row.ticket == Some(t)
  }

  /** A caller between a spend and its reopen, or still owing a refund, carries one use. */
  predicate Carries(tickets: Tickets, l: Local, t: TicketId) {
    match l
    case Asking(k, _, at, _) => (at.Reopening? || at.Returning?) && Ticket(tickets, k) == Some(t)
    case Repaying(owed, _, _, _) => owed == t
    case _ => false
  }

  function Carrying(tickets: Tickets, t: TicketId): Local -> bool {
    (l: Local) => Carries(tickets, l, t)
  }

  function Crediting(t: TicketId): TicketId -> bool {
    (paidWith: TicketId) => paidWith == t
  }

  function Held(s: State, t: TicketId): nat { Count(s.rows, Holding(t)) }
  function Carried(s: State, t: TicketId): nat { Count(s.pc, Carrying(s.ticketOf, t)) }
  function Credit(s: State, t: TicketId): nat { Count(s.books.credit, Crediting(t)) }

  /** All the places a use of `t` can be, added up. */
  function Total(s: State, t: TicketId): int
    requires Bounded(s, t)
  {
    s.uses[t].value + Held(s, t) + Carried(s, t) + Credit(s, t) + Tally(s.books.kept, t) + Tally(s.books.lost, t)
  }

  predicate Balanced(s: State, t: TicketId) {
    Bounded(s, t) ==>
      t in s.books.supply && s.uses[t].value >= 0 && Total(s, t) == s.books.supply[t] + Tally(s.books.unpaid, t)
  }

  predicate CreditOk(tickets: Tickets, books: Books) {
    forall k :: k in books.credit ==> k in books.paid && Ticket(tickets, k) == Some(books.credit[k])
  }

  /** The use a login took waits for the key's first question, and no longer. */
  predicate PaidOk(log: Log, books: Books) {
    forall k :: k in books.paid ==> (k in books.credit <==> Tally(log.asks, k) == 0)
  }

  /** A key that asked with a bounded ticket has logged in. */
  ghost predicate AskersPaid(s: State) {
    forall k :: Tally(s.log.asks, k) >= 1 ==> MayAsk(s, k)
  }

  lemma CarriedMove(s: State, a: Actor, l: Local, t: TicketId)
    ensures Carried(Goto(s, a, l), t) == Carried(s, t) - One(Carries(s.ticketOf, At(s, a), t)) + One(Carries(s.ticketOf, l, t))
  {
    CountWrite(s.pc, a, l, Carrying(s.ticketOf, t));
  }

  lemma HeldWrite(s: State, k: Key, row: Row, t: TicketId)
    ensures Held(s.(rows := s.rows[k := row]), t) ==
            Held(s, t) - One(k in s.rows && Holding(t)(s.rows[k])) + One(Holding(t)(row))
  {
    CountWrite(s.rows, k, row, Holding(t));
  }

  /** Everything but what callers carry, measured against what there should be. */
  function Standing(s: State, t: TicketId): int
    requires Bounded(s, t)
  {
    s.uses[t].value + Held(s, t) + Credit(s, t) + Tally(s.books.kept, t) + Tally(s.books.lost, t) - Tally(s.books.unpaid, t)
  }

  lemma ChargedStanding(s: State, k: Key, t: TicketId)
    requires Bounded(s, t) && CreditOk(s.ticketOf, s.books)
    ensures Bounded(Charged(s, k), t)
    ensures Standing(Charged(s, k), t) == Standing(s, t) - One(TicketFor(s, k) == Some(t))
  {
    var b := s.books;
    if k in b.credit {
      var before, after := Matching(b.credit, Crediting(t)), Matching(b.credit - {k}, Crediting(t));
      SizeWithout(before, k);
      assert after == before - {k};
    }
  }

  lemma AskedStanding(s: State, k: Key, started: Time, t: TicketId)
    requires Bounded(s, t) && !PendingAt(s, k)
    ensures Bounded(Asked(s, k, started), t)
    ensures Standing(Asked(s, k, started), t) == Standing(s, t) + One(TicketFor(s, k) == Some(t))
  {
    HeldWrite(s, k, Row(Pending, started, TicketFor(s, k), None, false), t);
  }

  lemma RefreshedStanding(s: State, k: Key, t: TicketId)
    requires Bounded(s, t) && PendingAt(s, k) && s.rows[k].ticket == TicketFor(s, k)
    ensures Standing(s.(rows := s.rows[k := s.rows[k].(ticket := TicketFor(s, k))]), t) == Standing(s, t)
  {
    HeldWrite(s, k, s.rows[k].(ticket := TicketFor(s, k)), t);
  }

  lemma BooksStanding(s: State, l: Local, ok: bool, t: TicketId)
    requires Bounded(s, t) && l.Asking? && LocalOk(s.ticketOf, s.log, l) && !WritesRow(s, l, ok)
    ensures Bounded(UpsertEffect(s, l, ok), t)
    ensures Standing(UpsertEffect(s, l, ok), t) + One(Carries(s.ticketOf, UpsertNext(s, l, ok), t)) ==
            Standing(s, t) + One(Carries(s.ticketOf, l, t))
  {
    OtherwiseOnlyBooks(s, l, ok);
    match l.at
    case Spending =>
    case Returning(_) =>
    case Finding =>
    case _ => assert UpsertEffect(s, l, ok) == s;
  }

  /** Whatever an upsert's statement does to the books, the caller takes along or puts down. */
  lemma UpsertStanding(s: State, l: Local, ok: bool, t: TicketId)
    requires Bounded(s, t) && CreditOk(s.ticketOf, s.books)
    requires l.Asking? && LocalOk(s.ticketOf, s.log, l)
    requires l.key in s.rows ==> s.rows[l.key].ticket == TicketFor(s, l.key)
    ensures Bounded(UpsertEffect(s, l, ok), t)
    ensures Standing(UpsertEffect(s, l, ok), t) + One(Carries(s.ticketOf, UpsertNext(s, l, ok), t)) ==
            Standing(s, t) + One(Carries(s.ticketOf, l, t))
  {
    if !WritesRow(s, l, ok) {
      BooksStanding(s, l, ok, t);
    } else if l.at.Reopening? {
      AskedStanding(s, l.key, l.started, t);
    } else if l.at.Inserting? {
      ChargedStanding(s, l.key, t);
      AskedStanding(Charged(s, l.key), l.key, l.started, t);
    } else {
      RefreshedStanding(s, l.key, t);
    }
  }

  lemma SettleStanding(s: State, l: Local, ok: bool, t: TicketId)
    requires Bounded(s, t) && Shape(s)
    requires l.Settling? && l.todo != [] && LocalOk(s.ticketOf, s.log, l)
    ensures Bounded(SettleEffect(s, l, ok), t)
    ensures Standing(SettleEffect(s, l, ok), t) + One(Carries(s.ticketOf, SettleNext(s, l, ok), t)) == Standing(s, t)
  {
    var snap := l.todo[0];
    if ok && Wins(s, snap) {
      assert SnapshotOk(s.ticketOf, s.log, snap);
      assert RowOk(s.ticketOf, s.log, snap.key, s.rows[snap.key]);
      HeldWrite(s, snap.key, s.rows[snap.key].(status := l.to, scope := l.scope), t);
    }
  }

  lemma LoginStanding(s: State, k: Key, t: TicketId)
    requires Bounded(s, t) && CreditOk(s.ticketOf, s.books) && k in s.ticketOf && CanSpend(s, s.ticketOf[k])
    ensures var s' := LoggedIn(Spent(s, s.ticketOf[k]), k, s.ticketOf[k]);
            Bounded(s', t) && Standing(s', t) == Standing(s, t)
  {
    var own := s.ticketOf[k];
    var spent := Spent(s, own);
    assert Standing(spent, t) == Standing(s, t) - One(own == t);
    if k in s.books.paid {
      assert Standing(Kept(spent, own), t) == Standing(spent, t) + One(own == t);
    } else {
      CountWrite(s.books.credit, k, own, Crediting(t));
    }
  }

  /** Credit is spent by the insert it pays for, and by nothing else. */
  lemma UpsertCredit(s: State, l: Local, ok: bool)
    requires l.Asking?
    ensures var s' := UpsertEffect(s, l, ok);
            && s'.books.supply == s.books.supply && s'.ticketOf == s.ticketOf && s'.books.paid == s.books.paid
            && s'.books.credit == (if WritesRow(s, l, ok) && l.at.Inserting? then s.books.credit - {l.key} else s.books.credit)
            && s'.log == (if WritesRow(s, l, ok) && (l.at.Inserting? || l.at.Reopening?) then LogAsked(s.log, l.key, l.started) else s.log)
  {
    if WritesRow(s, l, ok) {
      if l.at.Inserting? && l.key !in s.books.credit { assert s.books.credit - {l.key} == s.books.credit; }
    } else {
      OtherwiseOnlyBooks(s, l, ok);
      assert l.at.Returning? || l.at.Spending? || UpsertEffect(s, l, ok) == s;
    }
  }

  ghost predicate PaysOk(s: State) { CreditOk(s.ticketOf, s.books) && PaidOk(s.log, s.books) && AskersPaid(s) }

  /** A key with a row has asked. */
  lemma RowMeansAsked(s: State, k: Key)
    requires Shape(s) && k in s.rows
    ensures Tally(s.log.asks, k) >= 1
  {
    assert RowOk(s.ticketOf, s.log, k, s.rows[k]);
  }

  /** Nothing was paid or asked, and no ticket became bounded. */
  ghost predicate SamePaid(s: State, s': State) {
    && s'.books == s.books.(kept := s'.books.kept, lost := s'.books.lost) && s'.log.asks == s.log.asks && s'.ticketOf == s.ticketOf
    && forall t :: Bounded(s', t) ==> Bounded(s, t)
  }

  lemma AskedPaidOk(log: Log, books: Books, books': Books, k: Key, started: Time)
    requires PaidOk(log, books) && books'.paid == books.paid && books'.credit == books.credit - {k}
    ensures PaidOk(LogAsked(log, k, started), books')
  {
    forall j | j in books'.paid ensures j in books'.credit <==> Tally(LogAsked(log, k, started).asks, j) == 0 {
      assert j in books.credit <==> Tally(log.asks, j) == 0;
    }
  }

  /** The first question takes the login's use along; a later one finds it gone. */
  lemma AskTakesCredit(s: State, l: Local, ok: bool)
    requires Shape(s) && PaysOk(s) && l.Asking? && WritesRow(s, l, ok) && (l.at.Inserting? || l.at.Reopening?)
    ensures var s' := UpsertEffect(s, l, ok);
            && s'.books.credit == s.books.credit - {l.key} && s'.books.paid == s.books.paid
            && s'.log == LogAsked(s.log, l.key, l.started) && s'.uses == s.uses && s'.ticketOf == s.ticketOf
  {
    UpsertCredit(s, l, ok);
    if l.at.Reopening? {
      RowMeansAsked(s, l.key);
      assert l.key !in s.books.credit;
    }
  }

  lemma UpsertAsksPays(s: State, l: Local, ok: bool)
    requires Shape(s) && PaysOk(s) && l.Asking? && WritesRow(s, l, ok) && (l.at.Inserting? || l.at.Reopening?) && MayAsk(s, l.key)
    ensures PaysOk(UpsertEffect(s, l, ok))
  {
    var s' := UpsertEffect(s, l, ok);
    AskTakesCredit(s, l, ok);
    AskedPaidOk(s.log, s.books, s'.books, l.key, l.started);
    forall k | Tally(s'.log.asks, k) >= 1 ensures MayAsk(s', k) {
      assert k != l.key ==> Tally(s'.log.asks, k) == Tally(s.log.asks, k);
    }
  }

  lemma UpsertOtherwisePaid(s: State, l: Local, ok: bool)
    requires l.Asking? && !(WritesRow(s, l, ok) && (l.at.Inserting? || l.at.Reopening?))
    ensures SamePaid(s, UpsertEffect(s, l, ok))
  {
    if WritesRow(s, l, ok) {
      assert UpsertEffect(s, l, ok).books == s.books;
    } else {
      OtherwiseOnlyBooks(s, l, ok);
      assert l.at.Returning? || l.at.Spending? || UpsertEffect(s, l, ok) == s;
    }
  }

  lemma UpsertPays(s: State, a: Actor, ok: bool)
    requires Shape(s) && At(s, a).Asking? && PaysOk(s) && Orderly(s, Upsert(a, ok))
    ensures var s' := Next(s, Upsert(a, ok)); PaysOk(s') && s'.books.supply == s.books.supply && s'.ticketOf == s.ticketOf
  {
    var l := At(s, a);
    UpsertCredit(s, l, ok);
    if WritesRow(s, l, ok) && (l.at.Inserting? || l.at.Reopening?) {
      UpsertAsksPays(s, l, ok);
    } else {
      UpsertOtherwisePaid(s, l, ok);
    }
  }

  lemma LoginPays(s: State, k: Key, t: TicketId)
    requires PaysOk(s) && Ticket(s.ticketOf, k) == Some(t) && CanSpend(s, t)
    ensures PaysOk(LoggedIn(Spent(s, t), k, t))
  {}

  lemma SettlePaid(s: State, a: Actor, ok: bool)
    requires Enabled(s, Settle(a, ok))
    ensures SamePaid(s, Next(s, Settle(a, ok)))
  {}

  lemma OtherwisePaid(s: State, step: Step)
    requires Enabled(s, step) && !step.Upsert? && !step.LoginSpend?
    ensures SamePaid(s, Next(s, step))
  {
    if step.Settle? {
      SettlePaid(s, step.a, step.ok);
    }
  }

  lemma StepPays(s: State, step: Step)
    requires Shape(s) && Enabled(s, step) && Orderly(s, step) && PaysOk(s)
    ensures PaysOk(Next(s, step))
    ensures Next(s, step).books.supply == s.books.supply && Next(s, step).ticketOf == s.ticketOf
  {
    if step.Upsert? {
      UpsertPays(s, step.a, step.ok);
    } else if step.LoginSpend? {
      var k := At(s, step.a).login;
      if step.ok && CanSpend(s, s.ticketOf[k]) {
        LoginPays(s, k, s.ticketOf[k]);
      }
    } else {
      OtherwisePaid(s, step);
    }
  }

  lemma AgeOutStanding(s: State, cutoff: Time, t: TicketId)
    requires Shape(s)
    ensures Held(Next(s, AgeOut(cutoff)), t) == Held(s, t)
  {
    forall k | k in Aged(s, cutoff) ensures !Holding(t)(s.rows[k]) {
      AgeOutSparesLiveRows(s, cutoff, k);
    }
    CountRemove(s.rows, Aged(s, cutoff), Holding(t));
  }

  lemma UpsertBalance(s: State, l: Local, ok: bool, t: TicketId)
    requires l.Asking? && Bounded(UpsertEffect(s, l, ok), t)
    ensures Bounded(s, t)
    ensures var n, n' := s.uses[t].value, UpsertEffect(s, l, ok).uses[t].value;
            n' == n || n' == n + 1 || (n' == n - 1 && n > 0)
  {
    if WritesRow(s, l, ok) {
      assert UpsertEffect(s, l, ok).uses == s.uses;
    } else if !l.at.Returning? && !l.at.Spending? {
      assert UpsertEffect(s, l, ok) == s;
    }
  }

  /** A ticket's balance moves by at most one use per step, and a spend needs one to take. */
  lemma BalanceStep(s: State, step: Step, t: TicketId)
    requires Enabled(s, step) && Bounded(Next(s, step), t)
    ensures Bounded(s, t)
    ensures var n, n' := s.uses[t].value, Next(s, step).uses[t].value;
            n' == n || n' == n + 1 || (n' == n - 1 && n > 0)
  {
    match step
    case Upsert(a, ok) => UpsertBalance(s, At(s, a), ok, t);
    case LoginSpend(a, ok) =>
    case Settle(a, ok) =>
    case Repay(a, ok) =>
    case _ =>
  }

  /** What the tables give or take, the caller's move takes or gives. */
  lemma MoveTotal(s: State, s': State, a: Actor, l: Local, t: TicketId)
    requires s'.pc == s.pc && s'.ticketOf == s.ticketOf && Bounded(s, t) && Bounded(s', t)
    requires Standing(s', t) + One(Carries(s.ticketOf, l, t)) == Standing(s, t) + One(Carries(s.ticketOf, At(s, a), t))
    ensures Bounded(Goto(s', a, l), t)
    ensures Total(Goto(s', a, l), t) - Tally(s'.books.unpaid, t) == Total(s, t) - Tally(s.books.unpaid, t)
  {
    CarriedMove(s', a, l, t);
  }

  lemma UpsertBalanced(s: State, a: Actor, ok: bool, t: TicketId)
    requires Shape(s) && PaysOk(s) && At(s, a).Asking? && Bounded(s, t)
    ensures var s' := Next(s, Upsert(a, ok)); Bounded(s', t) && Total(s', t) - Tally(s'.books.unpaid, t) == Total(s, t) - Tally(s.books.unpaid, t)
  {
    var l := At(s, a);
    var s', l' := UpsertEffect(s, l, ok), UpsertNext(s, l, ok);
    assert Next(s, Upsert(a, ok)) == Goto(s', a, l');
    assert LocalOk(s.ticketOf, s.log, l);
    assert l.key in s.rows ==> RowOk(s.ticketOf, s.log, l.key, s.rows[l.key]);
    UpsertStanding(s, l, ok, t);
    UpsertCredit(s, l, ok);
    UpsertKeepsCallers(s, l, ok);
    MoveTotal(s, s', a, l', t);
  }

  lemma SettleKeepsCallers(s: State, l: Local, ok: bool)
    requires l.Settling? && l.todo != []
    ensures var s' := SettleEffect(s, l, ok); s'.pc == s.pc && s'.ticketOf == s.ticketOf && s'.books.unpaid == s.books.unpaid
  {}

  lemma SettleBalanced(s: State, a: Actor, ok: bool, t: TicketId)
    requires Shape(s) && Enabled(s, Settle(a, ok)) && Bounded(s, t)
    ensures var s' := Next(s, Settle(a, ok)); Bounded(s', t) && Total(s', t) == Total(s, t) && s'.books.unpaid == s.books.unpaid
  {
    var l := At(s, a);
    var s', l' := SettleEffect(s, l, ok), SettleNext(s, l, ok);
    assert Next(s, Settle(a, ok)) == Goto(s', a, l');
    assert LocalOk(s.ticketOf, s.log, l);
    SettleStanding(s, l, ok, t);
    SettleKeepsCallers(s, l, ok);
    MoveTotal(s, s', a, l', t);
  }

  lemma RepayBalanced(s: State, a: Actor, ok: bool, t: TicketId)
    requires At(s, a).Repaying? && Bounded(s, t)
    ensures var s' := Next(s, Repay(a, ok)); Bounded(s', t) && Total(s', t) == Total(s, t) && s'.books.unpaid == s.books.unpaid
  {
    var l := At(s, a);
    MoveTotal(s, TryRefund(s, l.ticket, ok), a, Onward(l.todo, l.to, l.scope), t);
  }

  lemma LoginBalanced(s: State, a: Actor, ok: bool, t: TicketId)
    requires Enabled(s, LoginSpend(a, ok)) && PaysOk(s) && Bounded(s, t)
    ensures var s' := Next(s, LoginSpend(a, ok)); Bounded(s', t) && Total(s', t) == Total(s, t) && s'.books.unpaid == s.books.unpaid
  {
    var k := At(s, a).login;
    var own := s.ticketOf[k];
    if ok && CanSpend(s, own) {
      LoginStanding(s, k, t);
      CarriedMove(LoggedIn(Spent(s, own), k, own), a, Idle, t);
    } else {
      CarriedMove(s, a, Idle, t);
    }
  }

  /** A row that stays pending, or stays settled, holds what it held. */
  lemma RowsBalanced(s: State, step: Step, t: TicketId)
    requires Shape(s) && Enabled(s, step) && Bounded(s, t) && (step.MarkConsumed? || step.AgeOut?)
    ensures Bounded(Next(s, step), t) && Total(Next(s, step), t) == Total(s, t) && Next(s, step).books.unpaid == s.books.unpaid
  {
    if step.MarkConsumed? {
      if step.key in s.rows { HeldWrite(s, step.key, s.rows[step.key].(consumed := true), t); }
    } else {
      AgeOutStanding(s, step.cutoff, t);
    }
  }

  /** The steps that touch neither a balance nor the books move nothing. */
  lemma QuietBalanced(s: State, step: Step, t: TicketId)
    requires Shape(s) && Enabled(s, step) && Bounded(Next(s, step), t)
    requires step.LoginFind? || step.Begin? || step.Read? || step.MarkConsumed? || step.AgeOut? || step.DeleteTicket?
    ensures Bounded(s, t) && Total(Next(s, step), t) == Total(s, t) && Next(s, step).books.unpaid == s.books.unpaid
  {
    match step
    case LoginFind(a, k, ok) => CarriedMove(s, a, LoggingIn(k), t);
    case Begin(a, k, started) => CarriedMove(s, a, Asking(k, started, Refreshing, false), t);
    case Read(a, keys, to, scope) => CarriedMove(s, a, Onward(Snapshots(s, keys), to, scope), t);
    case DeleteTicket(_) =>
    case _ => RowsBalanced(s, step, t);
  }

  lemma StepBalanced(s: State, step: Step, t: TicketId)
    requires Shape(s) && PaysOk(s) && Enabled(s, step) && Orderly(s, step) && Balanced(s, t)
    ensures Balanced(Next(s, step), t)
  {
    if Bounded(Next(s, step), t) {
      BalanceStep(s, step, t);
      StepPays(s, step);
      match step
      case Upsert(a, ok) => UpsertBalanced(s, a, ok, t);
      case Settle(a, ok) => SettleBalanced(s, a, ok, t);
      case Repay(a, ok) => RepayBalanced(s, a, ok, t);
      case LoginSpend(a, ok) => LoginBalanced(s, a, ok, t);
      case _ => QuietBalanced(s, step, t);
    }
  }

  ghost predicate Inv(s: State) {
    Shape(s) && PaysOk(s) && forall t :: Balanced(s, t)
  }

  lemma InitiallyBalanced(s: State)
    requires Initial(s)
    ensures Inv(s)
  {
    InitiallySound(s);
    forall t ensures Balanced(s, t) {
      assert Matching(s.rows, Holding(t)) == {};
      assert Matching(s.pc, Carrying(s.ticketOf, t)) == {};
      assert Matching(s.books.credit, Crediting(t)) == {};
    }
  }

  lemma StepInv(s: State, step: Step)
    requires Inv(s) && Enabled(s, step) && Orderly(s, step)
    ensures Inv(Next(s, step))
  {
    StepShape(s, step);
    StepPays(s, step);
    forall t ensures Balanced(Next(s, step), t) { StepBalanced(s, step, t); }
  }

  /** Conservation: the books balance after every run of every mix of callers. */
  lemma {:induction false} UsesAreConserved(s: State, steps: seq<Step>)
    requires Inv(s) && Run(s, steps)
    ensures Inv(Exec(s, steps)) && Exec(s, steps).books.supply == s.books.supply
    decreases |steps|
  {
    if steps != [] {
      StepInv(s, steps[0]);
      StepPays(s, steps[0]);
      UsesAreConserved(Next(s, steps[0]), steps[1..]);
    }
  }

  /** With no caller mid-way and nothing pending, only admissions, unused logins and failed refunds cost a use. */
  lemma QuietBalance(s: State, t: TicketId)
    requires Inv(s) && Bounded(s, t)
    requires forall a :: a in s.pc ==> s.pc[a].Idle?
    requires forall k :: k in s.rows ==> s.rows[k].status != Pending
    ensures t in s.books.supply
    ensures s.uses[t].value == s.books.supply[t] + Tally(s.books.unpaid, t)
                               - Credit(s, t) - Tally(s.books.kept, t) - Tally(s.books.lost, t)
  {
    assert Balanced(s, t);
    assert Matching(s.rows, Holding(t)) == {};
    assert Matching(s.pc, Carrying(s.ticketOf, t)) == {};
  }
}
