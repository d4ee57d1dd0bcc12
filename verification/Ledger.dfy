/**
 The stored ledger and what each balance-changing operation makes of it. A database
 transaction either takes effect as a whole or leaves the ledger as it was.
 */
module Ledger {
  import opened Results
  import opened Collections
  import opened Accounts
  import opened Transactions

  datatype MovementCause =
    | OPENING
    | TRANSACTION_CREATED
    | TRANSACTION_UPDATED
    | TRANSACTION_DELETED
    | STATUS_CHANGED
    | INVOICE_PAID
    | RECONCILIATION

  datatype Movement = Movement(
    accountId: Id,
    transactionId: Option<Id>,
    cause: MovementCause,
    delta: int,
    balanceAfter: int
  )

  datatype LedgerState = LedgerState(
    accounts: AccountTable,
    transactions: map<Id, Transaction>,
    movements: seq<Movement>
  )

  type Step = Result<LedgerState, LedgerError>

  type Deltas = map<Id, int>

  // Locking and computing deltas.

  function IdsOf(t: Transaction): set<Id> {
    {t.accountId} + (if t.destinationAccountId.Some? then {t.destinationAccountId.value} else {})
  }

  function Locked(accounts: AccountTable, ids: set<Id>): AccountTable {
    map id | id in ids && id in accounts :: accounts[id]
  }

  function DeltasBetween(before: AccountTable, after: AccountTable, ids: set<Id>): Deltas {
    map id | id in ids && id in before && id in after :: after[id].balance - before[id].balance
  }

  function EffectDeltas(locked: AccountTable, effects: seq<BalanceEffect>, scheduled: bool): Result<Deltas, LedgerError> {
    match RunEffects(locked, effects, scheduled)
    case Err(e) => Err(e)
    case Ok(after) => Ok(DeltasBetween(locked, after, Touched(effects)))
  }

  /** How a new transaction is turned into deltas: three pieces of code do it. */
  datatype DeltaRule = ByRepository | ByCreateService | ByPaymentService

  function RuleDeltas(rule: DeltaRule, locked: AccountTable, t: Transaction): Result<Deltas, LedgerError> {
    match rule
    case ByRepository => EffectDeltas(locked, BalanceEffects(t), false)
    case ByCreateService => CreateServiceDeltas(locked, t)
    case ByPaymentService => PaymentDeltas(locked, t)
  }

  function Replaced(accounts: AccountTable, id: Id, outcome: Outcome): Result<AccountTable, LedgerError> {
    match outcome
    case Err(reason) => Err(AccountRefused(reason))
    case Ok(row) => Ok(accounts[id := row])
  }

  function CreateServiceRows(locked: AccountTable, t: Transaction): Result<AccountTable, LedgerError>
    requires t.accountId in locked && (t.destinationAccountId.Some? ==> t.destinationAccountId.value in locked)
  {
    match t.kind
    case EXPENSE => Replaced(locked, t.accountId, WithEffect(locked[t.accountId], Expense, t.amount))
    case INCOME => Replaced(locked, t.accountId, WithEffect(locked[t.accountId], Income, t.amount))
    case TRANSFER =>
      if t.destinationAccountId.None? then Ok(locked)
      else
        var destination := t.destinationAccountId.value;
        match Replaced(locked, t.accountId, WithEffect(locked[t.accountId], Expense, t.amount))
        case Err(e) => Err(e)
        case Ok(middle) => Replaced(middle, destination, WithEffect(middle[destination], Income, t.amount))
  }

  function CreateServiceDeltas(locked: AccountTable, t: Transaction): Result<Deltas, LedgerError> {
    if t.status != COMPLETED then Ok(map[])
    else if t.accountId !in locked then Err(AccountNotFound)
    else if t.destinationAccountId.Some? && t.destinationAccountId.value !in locked then Err(AccountNotFound)
    else
      match CreateServiceRows(locked, t)
      case Err(e) => Err(e)
      case Ok(after) => Ok(DeltasBetween(locked, after, IdsOf(t)))
  }

  function PaymentRows(locked: AccountTable, source: Id, card: Id, amount: int): Result<AccountTable, LedgerError>
    requires source in locked && card in locked
  {
    match Replaced(locked, source, Debited(locked[source], amount))
    case Err(e) => Err(e)
    case Ok(middle) => Replaced(middle, card, InvoicePaid(middle[card], amount))
  }

  function PaymentDeltas(locked: AccountTable, t: Transaction): Result<Deltas, LedgerError> {
    if t.accountId !in locked then Err(AccountNotFound)
    else if t.destinationAccountId.None? || t.destinationAccountId.value !in locked then Err(AccountNotFound)
    else if locked[t.destinationAccountId.value].kind != CreditCard then Err(NotACreditCard)
    else
      match PaymentRows(locked, t.accountId, t.destinationAccountId.value, t.amount)
      case Err(e) => Err(e)
      case Ok(after) => Ok(DeltasBetween(locked, after, IdsOf(t)))
  }

  // Writing deltas.

  function NonZero(deltas: Deltas): set<Id> {
    set id | id in deltas && deltas[id] != 0
  }

  function Moved(l: LedgerState, id: Id, delta: int, transactionId: Option<Id>, cause: MovementCause): LedgerState
    requires id in l.accounts
  {
    var row := l.accounts[id].(balance := l.accounts[id].balance + delta);
    l.(accounts := l.accounts[id := row],
       movements := l.movements + [Movement(id, transactionId, cause, delta, row.balance)])
  }

  function WriteEach(l: LedgerState, ids: seq<Id>, deltas: Deltas, transactionId: Option<Id>, cause: MovementCause): Step
    requires forall id :: id in ids ==> id in deltas
    decreases |ids|
  {
    if ids == [] then Ok(l)
    else if ids[0] !in l.accounts then Err(AccountNotFound)
    else WriteEach(Moved(l, ids[0], deltas[ids[0]], transactionId, cause), ids[1..], deltas, transactionId, cause)
  }

  function WriteBalanceDeltas(l: LedgerState, deltas: Deltas, transactionId: Option<Id>, cause: MovementCause): Step {
    WriteEach(l, Ascending(NonZero(deltas)), deltas, transactionId, cause)
  }

  lemma WriteEachUnrolls(
      l: LedgerState, ids: seq<Id>, i: nat, deltas: Deltas, transactionId: Option<Id>, cause: MovementCause)
    requires i < |ids| && forall id :: id in ids ==> id in deltas
    ensures WriteEach(l, ids[i..], deltas, transactionId, cause)
         == if ids[i] !in l.accounts then Err(AccountNotFound)
            else WriteEach(Moved(l, ids[i], deltas[ids[i]], transactionId, cause), ids[i + 1..], deltas, transactionId, cause)
  {
    assert ids[i..][1..] == ids[i + 1..];
  }

  lemma WriteEachEnds(l: LedgerState, ids: seq<Id>, deltas: Deltas, transactionId: Option<Id>, cause: MovementCause)
    requires ids == []
    ensures WriteEach(l, ids, deltas, transactionId, cause) == Ok(l)
  {
  }

  lemma {:induction false} WriteEachKeepsTables(
      l: LedgerState, ids: seq<Id>, deltas: Deltas, transactionId: Option<Id>, cause: MovementCause)
    requires forall id :: id in ids ==> id in deltas
    requires WriteEach(l, ids, deltas, transactionId, cause).Ok?
    ensures WriteEach(l, ids, deltas, transactionId, cause).value.accounts.Keys == l.accounts.Keys
    ensures WriteEach(l, ids, deltas, transactionId, cause).value.transactions == l.transactions
    decreases |ids|
  {
    if ids != [] {
      var moved := Moved(l, ids[0], deltas[ids[0]], transactionId, cause);
      WriteEachKeepsTables(moved, ids[1..], deltas, transactionId, cause);
      assert moved.accounts.Keys == l.accounts.Keys;
    }
  }

  /** Writing deltas adds no account and touches no transaction. */
  lemma WriteKeepsTables(l: LedgerState, deltas: Deltas, transactionId: Option<Id>, cause: MovementCause)
    requires WriteBalanceDeltas(l, deltas, transactionId, cause).Ok?
    ensures WriteBalanceDeltas(l, deltas, transactionId, cause).value.accounts.Keys == l.accounts.Keys
    ensures WriteBalanceDeltas(l, deltas, transactionId, cause).value.transactions == l.transactions
  {
    WriteEachKeepsTables(l, Ascending(NonZero(deltas)), deltas, transactionId, cause);
  }

  predicate ReferencesExist(l: LedgerState, t: Transaction) {
    IdsOf(t) <= l.accounts.Keys
  }

  // The operations.

  function CreateTransaction(l: LedgerState, id: Id, t: Transaction, rule: DeltaRule, cause: MovementCause): Step {
    match RuleDeltas(rule, Locked(l.accounts, IdsOf(t)), t)
    case Err(e) => Err(e)
    case Ok(deltas) =>
      if id in l.transactions then Err(DuplicateKey)
      else if !ReferencesExist(l, t) then Err(ForeignKeyViolation)
      else WriteBalanceDeltas(l.(transactions := l.transactions[id := t]), deltas, Some(id), cause)
  }

  /** What an update request may change; the rest is kept from the stored row. */
  datatype TransactionEdit = TransactionEdit(
    accountId: Id,
    destinationAccountId: Option<Id>,
    amount: int,
    date: nat,
    kind: TransactionType,
    status: TransactionStatus
  )

  function Edited(t: Transaction, edit: TransactionEdit): Transaction {
    t.(accountId := edit.accountId, destinationAccountId := edit.destinationAccountId, amount := edit.amount,
       date := edit.date, kind := edit.kind, status := edit.status)
  }

  function UpdateTransaction(l: LedgerState, id: Id, edit: TransactionEdit): Step {
    if id !in l.transactions then Err(TransactionNotFound)
    else
      var current := l.transactions[id];
      match Created(Edited(current, edit))
      case Err(cause) => Err(TransactionRefused(cause))
      case Ok(next) =>
        match EffectDeltas(Locked(l.accounts, IdsOf(current) + IdsOf(next)),
                           RevertedBalanceEffects(current) + BalanceEffects(next), false)
        case Err(e) => Err(e)
        case Ok(deltas) =>
          match WriteBalanceDeltas(l, deltas, Some(id), TRANSACTION_UPDATED)
          case Err(e) => Err(e)
          case Ok(written) =>
            if !ReferencesExist(l, next) then Err(ForeignKeyViolation)
            else Ok(written.(transactions := written.transactions[id := next]))
  }

  function DeleteTransaction(l: LedgerState, id: Id): Step {
    if id !in l.transactions then Err(TransactionNotFound)
    else
      var current := l.transactions[id];
      match EffectDeltas(Locked(l.accounts, IdsOf(current)), RevertedBalanceEffects(current), false)
      case Err(e) => Err(e)
      case Ok(deltas) =>
        WriteBalanceDeltas(l.(transactions := l.transactions - {id}), deltas, Some(id), TRANSACTION_DELETED)
  }

  function StatusBefore(status: TransactionStatus): TransactionStatus {
    match status
    case COMPLETED => PENDING
    case PENDING => COMPLETED
  }

  function SetStatus(l: LedgerState, id: Id, workspaceId: Id, status: TransactionStatus, scheduled: bool): Step {
    if id !in l.transactions || l.transactions[id].workspaceId != workspaceId then Err(TransactionNotFound)
    else if l.transactions[id].status == status
    then Err(if status == COMPLETED then TransactionAlreadyCompleted else TransactionAlreadyPending)
    else
      var updated := l.transactions[id].(status := status);
      match EffectDeltas(Locked(l.accounts, IdsOf(updated)), BalanceEffectsFrom(updated, StatusBefore(status)), scheduled)
      case Err(e) => Err(e)
      case Ok(deltas) =>
        WriteBalanceDeltas(l.(transactions := l.transactions[id := updated]), deltas, Some(id), STATUS_CHANGED)
  }

  /** The generator's insert: a pending row, which has no effect on balances. */
  function InsertPending(l: LedgerState, id: Id, t: Transaction): Step {
    if id in l.transactions then Err(DuplicateKey)
    else if !ReferencesExist(l, t) then Err(ForeignKeyViolation)
    else Ok(l.(transactions := l.transactions[id := t.(status := PENDING)]))
  }

  /** What the account factories build from a request: a card opens owing nothing. */
  function Opening(kind: AccountKind, balance: int, creditLimit: Option<int>): Outcome {
    match kind
    case Checking => Ok(AccountRow(Checking, balance, None))
    case CreditCard =>
      if creditLimit.Some? && creditLimit.value <= 0 then Err(LimitMustBePositive)
      else Ok(AccountRow(CreditCard, 0, creditLimit))
    case _ => if balance < 0 then Err(NegativeOpeningBalance) else Ok(AccountRow(kind, balance, None))
  }

  function OpenAccount(l: LedgerState, id: Id, kind: AccountKind, balance: int, creditLimit: Option<int>): Step {
    match Opening(kind, balance, creditLimit)
    case Err(reason) => Err(AccountRefused(reason))
    case Ok(row) =>
      if id in l.accounts then Err(DuplicateKey)
      else Ok(l.(accounts := l.accounts[id := row],
                 movements := l.movements + [Movement(id, None, OPENING, row.balance, row.balance)]))
  }

  /** Editing an account never writes its balance. */
  function AdjustLimit(l: LedgerState, id: Id, newLimit: Option<int>): Step {
    if id !in l.accounts then Err(AccountNotFound)
    else if l.accounts[id].kind != CreditCard then Ok(l)
    else if newLimit.Some? && newLimit.value <= 0 then Err(AccountRefused(LimitMustBePositive))
    else Ok(l.(accounts := l.accounts[id := l.accounts[id].(creditLimit := newLimit)]))
  }
}
