/**
 When a transaction may be completed. A request dated after today is stored as pending, so only
 confirming a row by hand can complete it before its day.
 */
module CompletionDates {
  import opened Results
  import opened Collections
  import opened CivilCalendar
  import opened Accounts
  import opened Transactions
  import opened Ledger
  import opened LedgerRuns
  import opened LedgerTheorems
  import opened NetWorth
  import opened BalanceEvolution

  /** What creating and editing make of the status a request asks for. */
  function ResolvedStatus(date: Date, today: Date, requested: Option<TransactionStatus>): TransactionStatus {
    if date > today then PENDING
    else if requested.Some? then requested.value
    else COMPLETED
  }

  /** The operation carries what the services resolve on that day, and settlement only takes due rows. */
  ghost predicate IsResolvedOn(l: LedgerState, op: Operation, today: Date) {
    match op
    case Create(_, t) => exists requested :: t.status == ResolvedStatus(t.date, today, requested)
    case Plan(_, t) => t.status == ResolvedStatus(t.date, today, None)
    case Pay(_, _, _, _, _, date) => date == today
    case Update(_, edit) => exists requested :: edit.status == ResolvedStatus(edit.date, today, Some(requested))
    case Status(id, _, _, scheduled) => scheduled ==> id in l.transactions && l.transactions[id].date <= today
    case _ => true
  }

  /** A pending row dated later, confirmed by hand. */
  predicate ConfirmsEarly(l: LedgerState, op: Operation, today: Date) {
    && op.Status? && op.status == COMPLETED && !op.scheduled
    && op.id in l.transactions && l.transactions[op.id].date > today
  }

  /**
   With nothing completed after today, an operation of today completes something dated later
   exactly when it is accepted and confirms a later row by hand.
   */
  lemma OnlyConfirmingCompletesEarly(l: LedgerState, op: Operation, today: Date)
    requires NothingCompletedAfter(l.transactions, today) && IsResolvedOn(l, op, today)
    ensures NothingCompletedAfter(Perform(l, op).transactions, today)
            <==> !(ConfirmsEarly(l, op, today) && Attempt(l, op).Ok?)
  {
    hide CreateChecked, UpdateTransaction, DeleteTransaction, SetStatus, OpenAccount, AdjustLimit;
    if Attempt(l, op).Ok? {
      match op
      case Open(k, kind, balance, creditLimit) => OpeningKeepsRows(l, k, kind, balance, creditLimit);
      case Limit(k, newLimit) => LimitKeepsRows(l, k, newLimit);
      case Create(k, t) => CreateStoresTheRow(l, k, t, ByCreateService, TRANSACTION_CREATED);
      case Plan(k, t) => CreateStoresTheRow(l, k, t, ByRepository, TRANSACTION_CREATED);
      case Pay(k, workspaceId, source, card, amount, date) =>
        CreateStoresTheRow(l, k, PaymentOf(workspaceId, source, card, amount, date), ByPaymentService, INVOICE_PAID);
      case Generate(_, _) =>
      case Update(k, edit) => UpdateStoresTheRow(l, k, edit);
      case Delete(k) => DeleteRemovesTheRow(l, k);
      case Status(k, workspaceId, status, scheduled) =>
        StatusStoresTheRow(l, k, workspaceId, status, scheduled);
        assert Attempt(l, op).value.transactions[k].status == status;
    }
  }

  lemma OpeningKeepsRows(l: LedgerState, id: Id, kind: AccountKind, balance: int, creditLimit: Option<int>)
    requires OpenAccount(l, id, kind, balance, creditLimit).Ok?
    ensures OpenAccount(l, id, kind, balance, creditLimit).value.transactions == l.transactions
  {
  }

  lemma LimitKeepsRows(l: LedgerState, id: Id, newLimit: Option<int>)
    requires AdjustLimit(l, id, newLimit).Ok?
    ensures AdjustLimit(l, id, newLimit).value.transactions == l.transactions
  {
  }

  /** An operation and the day it is performed on. */
  datatype Dated = Dated(op: Operation, day: Date)

  function RunDated(l: LedgerState, ops: seq<Dated>): LedgerState
    decreases |ops|
  {
    if ops == [] then l else RunDated(Perform(l, ops[0].op), ops[1..])
  }

  /** Days go forward, every operation is resolved on its day, and none confirms a later row. */
  ghost predicate IsTimely(l: LedgerState, ops: seq<Dated>, from: Date)
    decreases |ops|
  {
    ops == [] || (
      && from <= ops[0].day && IsResolvedOn(l, ops[0].op, ops[0].day) && !ConfirmsEarly(l, ops[0].op, ops[0].day)
      && IsTimely(Perform(l, ops[0].op), ops[1..], ops[0].day))
  }

  function LastDay(ops: seq<Dated>, from: Date): Date {
    if ops == [] then from else ops[|ops| - 1].day
  }

  /** Then nothing is ever completed before its day, and the ledger stays sound. */
  lemma {:induction false} TimelyRunsCompleteNothingEarly(l: LedgerState, ops: seq<Dated>, from: Date)
    requires Sound(l) && NothingCompletedAfter(l.transactions, from) && IsTimely(l, ops, from)
    ensures Sound(RunDated(l, ops)) && NothingCompletedAfter(RunDated(l, ops).transactions, LastDay(ops, from))
    decreases |ops|
  {
    hide Sound, Perform, IsResolvedOn, ConfirmsEarly;
    if ops != [] {
      OnlyConfirmingCompletesEarly(l, ops[0].op, ops[0].day);
      PerformKeepsSound(l, ops[0].op);
      TimelyRunsCompleteNothingEarly(Perform(l, ops[0].op), ops[1..], ops[0].day);
    }
  }
}
