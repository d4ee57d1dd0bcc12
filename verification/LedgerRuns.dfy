/**
 Whole runs of the ledger. Each account's stored balance is an index kept step by step;
 these are the facts that make it agree with recomputation in every reachable state.
 */
module LedgerRuns {
  import opened Results
  import opened Collections
  import opened CivilCalendar
  import opened Accounts
  import opened Transactions
  import opened Ledger
  import opened EffectAgreement

  datatype Operation =
    | Open(id: Id, kind: AccountKind, balance: int, creditLimit: Option<int>)
    | Limit(id: Id, newLimit: Option<int>)
    | Create(id: Id, t: Transaction)
    | Plan(id: Id, t: Transaction)
    | Pay(id: Id, workspaceId: Id, source: Id, card: Id, amount: int, date: Date)
    | Generate(id: Id, t: Transaction)
    | Update(id: Id, edit: TransactionEdit)
    | Delete(id: Id)
    | Status(id: Id, workspaceId: Id, status: TransactionStatus, scheduled: bool)

  /** Creating through the entity, whose checks come before any lock. */
  function CreateChecked(l: LedgerState, id: Id, t: Transaction, rule: DeltaRule, cause: MovementCause): Step {
    match Created(t)
    case Err(e) => Err(TransactionRefused(e))
    case Ok(accepted) => CreateTransaction(l, id, accepted, rule, cause)
  }

  function PaymentOf(workspaceId: Id, source: Id, card: Id, amount: int, date: Date): Transaction {
    Transaction(workspaceId, source, Some(card), amount, date, TRANSFER, COMPLETED, None)
  }

  /** Paying an invoice: destination first, then source, then the transfer. */
  function PayInvoice(l: LedgerState, id: Id, workspaceId: Id, source: Id, card: Id, amount: int, date: Date): Step {
    if card !in l.accounts then Err(AccountNotFound)
    else if source == card then Err(TransactionRefused(SourceAndDestinationMustDiffer))
    else if l.accounts[card].kind != CreditCard then Err(NotACreditCard)
    else if source !in l.accounts then Err(AccountNotFound)
    else if l.accounts[source].kind == CreditCard then Err(SourceIsACreditCard)
    else CreateChecked(l, id, PaymentOf(workspaceId, source, card, amount, date), ByPaymentService, INVOICE_PAID)
  }

  function Attempt(l: LedgerState, op: Operation): Step {
    match op
    case Open(id, kind, balance, creditLimit) => OpenAccount(l, id, kind, balance, creditLimit)
    case Limit(id, newLimit) => AdjustLimit(l, id, newLimit)
    case Create(id, t) => CreateChecked(l, id, t, ByCreateService, TRANSACTION_CREATED)
    case Plan(id, t) => CreateChecked(l, id, t, ByRepository, TRANSACTION_CREATED)
    case Pay(id, workspaceId, source, card, amount, date) => PayInvoice(l, id, workspaceId, source, card, amount, date)
    case Generate(id, t) => if Created(t).Ok? then InsertPending(l, id, t) else Err(TransactionRefused(Created(t).error))
    case Update(id, edit) => UpdateTransaction(l, id, edit)
    case Delete(id) => DeleteTransaction(l, id)
    case Status(id, workspaceId, status, scheduled) => SetStatus(l, id, workspaceId, status, scheduled)
  }

  /** A refused operation changes nothing. */
  function Perform(l: LedgerState, op: Operation): LedgerState {
    match Attempt(l, op)
    case Ok(next) => next
    case Err(_) => l
  }

  function Run(l: LedgerState, ops: seq<Operation>): LedgerState
    decreases |ops|
  {
    if ops == [] then l else Run(Perform(l, ops[0]), ops[1..])
  }

  const EMPTY := LedgerState(map[], map[], [])

  // Recomputation.

  ghost function Contributions(ts: map<Id, Transaction>, id: Id, account: AccountKind): map<Id, int> {
    map k | k in ts :: Contribution(ts[k], id, account)
  }

  /** The balance the completed transactions alone would give an account. */
  ghost function Recomputed(ts: map<Id, Transaction>, id: Id, account: AccountKind): int {
    Sum(Contributions(ts, id, account))
  }

  lemma RecomputedAfterPut(ts: map<Id, Transaction>, k: Id, t: Transaction, id: Id, account: AccountKind)
    ensures Recomputed(ts[k := t], id, account)
         == Recomputed(ts, id, account) + Contribution(t, id, account)
            - (if k in ts then Contribution(ts[k], id, account) else 0)
  {
    var before := Contributions(ts, id, account);
    assert Contributions(ts[k := t], id, account) == before[k := Contribution(t, id, account)];
    if k in ts {
      SumReplaces(before, k, Contribution(t, id, account));
    } else {
      SumAdds(before, k, Contribution(t, id, account));
    }
  }

  lemma RecomputedAfterRemoval(ts: map<Id, Transaction>, k: Id, id: Id, account: AccountKind)
    requires k in ts
    ensures Recomputed(ts - {k}, id, account) == Recomputed(ts, id, account) - Contribution(ts[k], id, account)
  {
    var before := Contributions(ts, id, account);
    assert Contributions(ts - {k}, id, account) == before - {k};
    SumTakes(before, k);
  }

  // Movements.

  function DeltaSum(movements: seq<Movement>, id: Id): int {
    if movements == [] then 0
    else
      var last := movements[|movements| - 1];
      DeltaSum(movements[..|movements| - 1], id) + (if last.accountId == id then last.delta else 0)
  }

  /** Every movement of the account records the running sum of its deltas. */
  predicate RecordsPrefixSums(movements: seq<Movement>, id: Id) {
    movements == []
    || (var last := movements[|movements| - 1];
        && RecordsPrefixSums(movements[..|movements| - 1], id)
        && (last.accountId == id ==> last.balanceAfter == DeltaSum(movements, id)))
  }

  function OpeningSum(movements: seq<Movement>, id: Id): int {
    if movements == [] then 0
    else
      var last := movements[|movements| - 1];
      OpeningSum(movements[..|movements| - 1], id) + (if last.accountId == id && last.cause == OPENING then last.delta else 0)
  }

  function OpeningCount(movements: seq<Movement>, id: Id): nat {
    if movements == [] then 0
    else
      var last := movements[|movements| - 1];
      OpeningCount(movements[..|movements| - 1], id) + (if last.accountId == id && last.cause == OPENING then 1 else 0)
  }

  predicate Mentions(movements: seq<Movement>, id: Id) {
    exists i :: 0 <= i < |movements| && movements[i].accountId == id
  }

  lemma {:induction false} UnmentionedIsEmpty(movements: seq<Movement>, id: Id)
    requires !Mentions(movements, id)
    ensures DeltaSum(movements, id) == 0 && OpeningSum(movements, id) == 0 && OpeningCount(movements, id) == 0
    ensures RecordsPrefixSums(movements, id)
  {
    if movements != [] {
      var shorter := movements[..|movements| - 1];
      assert !Mentions(shorter, id) by {
        forall i | 0 <= i < |shorter|
          ensures shorter[i].accountId != id
        {
          assert shorter[i] == movements[i];
        }
      }
      UnmentionedIsEmpty(shorter, id);
      assert movements[|movements| - 1].accountId != id;
    }
  }

  // What one step does to one account it already had.

  /** Everything a step may do to an existing account, seen through both indexes. */
  ghost predicate Follows(l: LedgerState, next: LedgerState, id: Id)
    requires id in l.accounts
  {
    && id in next.accounts
    && next.accounts[id].kind == l.accounts[id].kind
    && next.accounts[id].balance - l.accounts[id].balance
       == Recomputed(next.transactions, id, l.accounts[id].kind) - Recomputed(l.transactions, id, l.accounts[id].kind)
    && next.accounts[id].balance - l.accounts[id].balance == DeltaSum(next.movements, id) - DeltaSum(l.movements, id)
    && OpeningSum(next.movements, id) == OpeningSum(l.movements, id)
    && OpeningCount(next.movements, id) == OpeningCount(l.movements, id)
    && (RecordsPrefixSums(l.movements, id) && l.accounts[id].balance == DeltaSum(l.movements, id)
        ==> RecordsPrefixSums(next.movements, id))
  }

  /** The same, for the writing of deltas alone. */
  ghost predicate MovesBy(l: LedgerState, next: LedgerState, id: Id, delta: int)
    requires id in l.accounts
  {
    && id in next.accounts
    && next.accounts[id] == l.accounts[id].(balance := l.accounts[id].balance + delta)
    && DeltaSum(next.movements, id) == DeltaSum(l.movements, id) + delta
    && OpeningSum(next.movements, id) == OpeningSum(l.movements, id)
    && OpeningCount(next.movements, id) == OpeningCount(l.movements, id)
    && (RecordsPrefixSums(l.movements, id) && l.accounts[id].balance == DeltaSum(l.movements, id)
        ==> RecordsPrefixSums(next.movements, id))
  }

  lemma MovedMovesBy(l: LedgerState, moved: Id, delta: int, transactionId: Option<Id>, cause: MovementCause, id: Id)
    requires moved in l.accounts && id in l.accounts && cause != OPENING
    ensures MovesBy(l, Moved(l, moved, delta, transactionId, cause), id, if moved == id then delta else 0)
  {
    var next := Moved(l, moved, delta, transactionId, cause);
    assert next.movements[..|next.movements| - 1] == l.movements;
  }

  lemma {:induction false} WriteEachMovesBy(
      l: LedgerState, ids: seq<Id>, deltas: Deltas, transactionId: Option<Id>, cause: MovementCause, id: Id)
    requires forall k :: k in ids ==> k in deltas
    requires forall i, j :: 0 <= i < j < |ids| ==> ids[i] < ids[j]
    requires id in l.accounts && cause != OPENING
    requires WriteEach(l, ids, deltas, transactionId, cause).Ok?
    ensures MovesBy(l, WriteEach(l, ids, deltas, transactionId, cause).value, id, if id in ids then deltas[id] else 0)
    decreases |ids|
  {
    hide DeltaSum, OpeningSum, OpeningCount, RecordsPrefixSums, Moved;
    if ids != [] {
      var moved := Moved(l, ids[0], deltas[ids[0]], transactionId, cause);
      MovedMovesBy(l, ids[0], deltas[ids[0]], transactionId, cause, id);
      WriteEachMovesBy(moved, ids[1..], deltas, transactionId, cause, id);
      InHeadOrTail(ids, id);
    }
  }

  lemma InHeadOrTail(ids: seq<Id>, id: Id)
    requires ids != [] && forall i, j :: 0 <= i < j < |ids| ==> ids[i] < ids[j]
    ensures id in ids <==> id == ids[0] || id in ids[1..]
    ensures ids[0] !in ids[1..]
  {
    assert ids == [ids[0]] + ids[1..];
  }

  function DeltaOf(deltas: Deltas, id: Id): int {
    if id in deltas then deltas[id] else 0
  }

  lemma WriteMovesBy(l: LedgerState, deltas: Deltas, transactionId: Option<Id>, cause: MovementCause, id: Id)
    requires id in l.accounts && cause != OPENING
    requires WriteBalanceDeltas(l, deltas, transactionId, cause).Ok?
    ensures MovesBy(l, WriteBalanceDeltas(l, deltas, transactionId, cause).value, id, DeltaOf(deltas, id))
  {
    WriteEachMovesBy(l, Ascending(NonZero(deltas)), deltas, transactionId, cause, id);
  }

  /** The delta measured on an account is the signed sum of the effects on it. */
  lemma EffectDeltaIsSigned(accounts: AccountTable, ids: set<Id>, effects: seq<BalanceEffect>, scheduled: bool, id: Id)
    requires Touched(effects) <= ids && id in accounts
    requires EffectDeltas(Locked(accounts, ids), effects, scheduled).Ok?
    ensures DeltaOf(EffectDeltas(Locked(accounts, ids), effects, scheduled).value, id)
         == SignedSum(effects, id, accounts[id].kind)
  {
    if id in Touched(effects) {
      RunEffectsMoves(Locked(accounts, ids), effects, scheduled, id);
    } else {
      UntouchedSumIsZero(effects, id, accounts[id].kind);
    }
  }

  lemma TouchedByTransaction(t: Transaction, reverted: bool)
    ensures Touched(ResolveEffects(t, reverted)) <= IdsOf(t)
  {
  }

  // One lemma for each operation.

  lemma CreateFollows(l: LedgerState, k: Id, t: Transaction, rule: DeltaRule, cause: MovementCause, id: Id)
    requires id in l.accounts && cause != OPENING && IsWellShaped(t)
    requires rule == ByPaymentService ==>
               IsPayment(t) && t.accountId in l.accounts && l.accounts[t.accountId].kind != CreditCard
    requires CreateTransaction(l, k, t, rule, cause).Ok?
    ensures Follows(l, CreateTransaction(l, k, t, rule, cause).value, id)
  {
    hide RunEffects, DeltaSum, OpeningSum, OpeningCount, RecordsPrefixSums, WriteBalanceDeltas, Contribution, SignedSum;
    var locked := Locked(l.accounts, IdsOf(t));
    var inserted := l.(transactions := l.transactions[k := t]);
    var deltas := RuleDeltas(rule, locked, t).value;
    RuleAgrees(l, t, rule);
    var own := RuleDeltas(ByRepository, locked, t).value;
    SameDeltaOf(deltas, own, id);
    TouchedByTransaction(t, false);
    EffectDeltaIsSigned(l.accounts, IdsOf(t), BalanceEffects(t), false, id);
    EffectsContribute(t, false, id, l.accounts[id].kind);
    WriteMovesBy(inserted, deltas, Some(k), cause, id);
    WriteKeepsTables(inserted, deltas, Some(k), cause);
    RecomputedAfterPut(l.transactions, k, t, id, l.accounts[id].kind);
  }

  lemma RuleAgrees(l: LedgerState, t: Transaction, rule: DeltaRule)
    requires IsWellShaped(t) && ReferencesExist(l, t)
    requires rule == ByPaymentService ==> IsPayment(t) && l.accounts[t.accountId].kind != CreditCard
    requires RuleDeltas(rule, Locked(l.accounts, IdsOf(t)), t).Ok?
    ensures SameOutcome(RuleDeltas(rule, Locked(l.accounts, IdsOf(t)), t),
                        RuleDeltas(ByRepository, Locked(l.accounts, IdsOf(t)), t))
  {
    var locked := Locked(l.accounts, IdsOf(t));
    match rule
    case ByRepository =>
    case ByCreateService => CreateServiceAgrees(locked, t);
    case ByPaymentService => PaymentServiceAgrees(locked, t);
  }

  lemma SameDeltaOf(a: Deltas, b: Deltas, id: Id)
    requires SameMoves(a, b)
    ensures DeltaOf(a, id) == DeltaOf(b, id)
  {
    assert id in NonZero(a) <==> id in NonZero(b);
  }

  lemma UpdateFollows(l: LedgerState, k: Id, edit: TransactionEdit, id: Id)
    requires id in l.accounts && UpdateTransaction(l, k, edit).Ok?
    ensures Follows(l, UpdateTransaction(l, k, edit).value, id)
  {
    hide RunEffects, DeltaSum, OpeningSum, OpeningCount, RecordsPrefixSums, WriteBalanceDeltas, Contribution, SignedSum, ResolveEffects;
    var current := l.transactions[k];
    var next := Edited(current, edit);
    var account := l.accounts[id].kind;
    var ids := IdsOf(current) + IdsOf(next);
    var effects := RevertedBalanceEffects(current) + BalanceEffects(next);
    var deltas := EffectDeltas(Locked(l.accounts, ids), effects, false).value;
    TouchedByTransaction(current, true);
    TouchedByTransaction(next, false);
    TouchedAppend(RevertedBalanceEffects(current), BalanceEffects(next));
    EffectDeltaIsSigned(l.accounts, ids, effects, false, id);
    SignedSumAppend(RevertedBalanceEffects(current), BalanceEffects(next), id, account);
    EffectsContribute(current, true, id, account);
    EffectsContribute(next, false, id, account);
    WriteMovesBy(l, deltas, Some(k), TRANSACTION_UPDATED, id);
    WriteKeepsTables(l, deltas, Some(k), TRANSACTION_UPDATED);
    RecomputedAfterPut(l.transactions, k, next, id, account);
  }

  lemma TouchedAppend(a: seq<BalanceEffect>, b: seq<BalanceEffect>)
    ensures Touched(a + b) == Touched(a) + Touched(b)
  {
  }

  lemma DeleteFollows(l: LedgerState, k: Id, id: Id)
    requires id in l.accounts && DeleteTransaction(l, k).Ok?
    ensures Follows(l, DeleteTransaction(l, k).value, id)
  {
    hide RunEffects, DeltaSum, OpeningSum, OpeningCount, RecordsPrefixSums, WriteBalanceDeltas, Contribution, SignedSum;
    var current := l.transactions[k];
    var effects := RevertedBalanceEffects(current);
    var removed := l.(transactions := l.transactions - {k});
    var deltas := EffectDeltas(Locked(l.accounts, IdsOf(current)), effects, false).value;
    TouchedByTransaction(current, true);
    EffectDeltaIsSigned(l.accounts, IdsOf(current), effects, false, id);
    EffectsContribute(current, true, id, l.accounts[id].kind);
    WriteMovesBy(removed, deltas, Some(k), TRANSACTION_DELETED, id);
    WriteKeepsTables(removed, deltas, Some(k), TRANSACTION_DELETED);
    RecomputedAfterRemoval(l.transactions, k, id, l.accounts[id].kind);
  }

  lemma StatusFollows(l: LedgerState, k: Id, workspaceId: Id, status: TransactionStatus, scheduled: bool, id: Id)
    requires id in l.accounts && SetStatus(l, k, workspaceId, status, scheduled).Ok?
    ensures Follows(l, SetStatus(l, k, workspaceId, status, scheduled).value, id)
  {
    hide RunEffects, DeltaSum, OpeningSum, OpeningCount, RecordsPrefixSums, WriteBalanceDeltas, Contribution, SignedSum, ResolveEffects;
    var current := l.transactions[k];
    var updated := current.(status := status);
    assert updated.(status := StatusBefore(status)) == current;
    var effects := BalanceEffectsFrom(updated, StatusBefore(status));
    var stored := l.(transactions := l.transactions[k := updated]);
    var deltas := EffectDeltas(Locked(l.accounts, IdsOf(updated)), effects, scheduled).value;
    TouchedByTransaction(current, true);
    TouchedByTransaction(updated, false);
    TouchedAppend(RevertedBalanceEffects(current), BalanceEffects(updated));
    EffectDeltaIsSigned(l.accounts, IdsOf(updated), effects, scheduled, id);
    StatusEffectsContribute(updated, StatusBefore(status), id, l.accounts[id].kind);
    WriteMovesBy(stored, deltas, Some(k), STATUS_CHANGED, id);
    WriteKeepsTables(stored, deltas, Some(k), STATUS_CHANGED);
    RecomputedAfterPut(l.transactions, k, updated, id, l.accounts[id].kind);
  }

  lemma PendingFollows(l: LedgerState, k: Id, t: Transaction, id: Id)
    requires id in l.accounts && InsertPending(l, k, t).Ok?
    ensures Follows(l, InsertPending(l, k, t).value, id)
  {
    RecomputedAfterPut(l.transactions, k, t.(status := PENDING), id, l.accounts[id].kind);
  }

  /**
   Every operation, accepted or refused, moves an account's stored balance, the sum of its
   movements and the recomputation over its completed transactions by the same amount.
   */
  lemma PerformFollows(l: LedgerState, op: Operation, id: Id)
    requires id in l.accounts
    ensures Follows(l, Perform(l, op), id)
  {
    hide Contributions, DeltaSum, OpeningSum, OpeningCount, RecordsPrefixSums;
    if Attempt(l, op).Ok? {
      match op
      case Open(k, kind, balance, creditLimit) => OpenFollows(l, k, kind, balance, creditLimit, id);
      case Limit(_, _) =>
      case Create(k, t) => CreateFollows(l, k, t, ByCreateService, TRANSACTION_CREATED, id);
      case Plan(k, t) => CreateFollows(l, k, t, ByRepository, TRANSACTION_CREATED, id);
      case Pay(k, workspaceId, source, card, amount, date) =>
        CreateFollows(l, k, PaymentOf(workspaceId, source, card, amount, date), ByPaymentService, INVOICE_PAID, id);
      case Generate(k, t) => PendingFollows(l, k, t, id);
      case Update(k, edit) => UpdateFollows(l, k, edit, id);
      case Delete(k) => DeleteFollows(l, k, id);
      case Status(k, workspaceId, status, scheduled) => StatusFollows(l, k, workspaceId, status, scheduled, id);
    }
  }

  lemma OpenFollows(l: LedgerState, k: Id, kind: AccountKind, balance: int, creditLimit: Option<int>, id: Id)
    requires id in l.accounts && OpenAccount(l, k, kind, balance, creditLimit).Ok?
    ensures Follows(l, OpenAccount(l, k, kind, balance, creditLimit).value, id)
  {
    var next := OpenAccount(l, k, kind, balance, creditLimit).value;
    assert next.movements[..|next.movements| - 1] == l.movements;
  }
}
