/** Net worth: every balance, with the debt of cards counted against. */
module NetWorth {
  import opened Results
  import opened Collections
  import opened CivilCalendar
  import opened Accounts
  import opened Transactions
  import opened Ledger
  import opened LedgerRuns
  import opened LedgerTheorems

  function Patrimony(row: AccountRow): int {
    if row.kind == CreditCard then -row.balance else row.balance
  }

  function NetSign(kind: AccountKind): int {
    if kind == CreditCard then -1 else 1
  }

  ghost function Patrimonies(l: LedgerState): map<Id, int> {
    map id | id in l.accounts :: Patrimony(l.accounts[id])
  }

  ghost function Current(l: LedgerState): int {
    Sum(Patrimonies(l))
  }

  ghost function OpeningShares(l: LedgerState): map<Id, int> {
    map id | id in l.accounts :: NetSign(l.accounts[id].kind) * OpeningSum(l.movements, id)
  }

  ghost function Openings(l: LedgerState): int {
    Sum(OpeningShares(l))
  }

  /** What a completed transaction adds to net worth. */
  function Flow(t: Transaction): int {
    if t.status != COMPLETED then 0
    else match t.kind
      case INCOME => t.amount
      case EXPENSE => -t.amount
      case TRANSFER => 0
  }

  ghost function Flows(ts: map<Id, Transaction>): map<Id, int> {
    map k | k in ts :: Flow(ts[k])
  }

  ghost function NetFlow(ts: map<Id, Transaction>): int {
    Sum(Flows(ts))
  }

  ghost function NetContributions(accounts: AccountTable, t: Transaction): map<Id, int> {
    map id | id in accounts :: NetSign(accounts[id].kind) * Contribution(t, id, accounts[id].kind)
  }

  ghost function NetRecomputed(accounts: AccountTable, ts: map<Id, Transaction>): map<Id, int> {
    map id | id in accounts :: NetSign(accounts[id].kind) * Recomputed(ts, id, accounts[id].kind)
  }

  /** The sides of one transaction, over all accounts, leave only its flow. */
  lemma SidesLeaveTheFlow(accounts: AccountTable, t: Transaction)
    requires IsWellShaped(t) && IdsOf(t) <= accounts.Keys
    ensures Sum(NetContributions(accounts, t)) == Flow(t)
  {
    var m := NetContributions(accounts, t);
    SumTakes(m, t.accountId);
    var rest := m - {t.accountId};
    if t.kind == TRANSFER {
      var destination := t.destinationAccountId.value;
      SumTakes(rest, destination);
      SumOfZeroes(rest - {destination});
    } else {
      SumOfZeroes(rest);
    }
  }

  predicate AllRefer(accounts: AccountTable, ts: map<Id, Transaction>) {
    forall k :: k in ts ==> IsWellShaped(ts[k]) && IdsOf(ts[k]) <= accounts.Keys
  }

  lemma OthersRefer(accounts: AccountTable, ts: map<Id, Transaction>, k: Id)
    requires AllRefer(accounts, ts) && k in ts
    ensures IsWellShaped(ts[k]) && IdsOf(ts[k]) <= accounts.Keys && AllRefer(accounts, ts - {k})
  {
  }

  /** Summing by account and summing by transaction give the same total. */
  lemma {:induction false} AccountsAndTransactionsAgree(accounts: AccountTable, ts: map<Id, Transaction>)
    requires AllRefer(accounts, ts)
    ensures Sum(NetRecomputed(accounts, ts)) == NetFlow(ts)
    decreases |ts|
  {
    hide NetRecomputed, NetContributions, Flow, NetFlow, Sum, AllRefer;
    if ts == map[] {
      NoTransactions(accounts, ts);
    } else {
      var k :| k in ts;
      OthersRefer(accounts, ts, k);
      AccountsAndTransactionsAgree(accounts, ts - {k});
      SidesLeaveTheFlow(accounts, ts[k]);
      TakeOneTransaction(accounts, ts, k);
      NetFlowTakes(ts, k);
    }
  }

  lemma NetFlowTakes(ts: map<Id, Transaction>, k: Id)
    requires k in ts
    ensures NetFlow(ts) == Flow(ts[k]) + NetFlow(ts - {k})
  {
    SumTakes(Flows(ts), k);
    assert Flows(ts) - {k} == Flows(ts - {k});
  }

  lemma NoTransactions(accounts: AccountTable, ts: map<Id, Transaction>)
    requires ts == map[]
    ensures Sum(NetRecomputed(accounts, ts)) == 0 && NetFlow(ts) == 0
  {
    forall id | id in accounts
      ensures Recomputed(ts, id, accounts[id].kind) == 0
    {
      assert Contributions(ts, id, accounts[id].kind) == map[];
    }
    SumOfZeroes(NetRecomputed(accounts, ts));
    SumOfZeroes(Flows(ts));
  }

  lemma TakeOneTransaction(accounts: AccountTable, ts: map<Id, Transaction>, k: Id)
    requires k in ts
    ensures Sum(NetRecomputed(accounts, ts))
         == Sum(NetContributions(accounts, ts[k])) + Sum(NetRecomputed(accounts, ts - {k}))
  {
    hide Recomputed, Contribution;
    var a, b := NetContributions(accounts, ts[k]), NetRecomputed(accounts, ts - {k});
    forall id | id in accounts
      ensures NetRecomputed(accounts, ts)[id] == a[id] + b[id]
    {
      RecomputedAfterRemoval(ts, k, id, accounts[id].kind);
    }
    SumPlus(a, b);
    assert NetRecomputed(accounts, ts) == map id | id in a :: a[id] + b[id];
  }

  /**
   In a sound ledger, current net worth is the openings plus completed income minus
   completed expense; transfers and invoice payments cancel out.
   */
  lemma NetWorthIsOpeningsPlusFlow(l: LedgerState)
    requires Sound(l)
    ensures Current(l) == Openings(l) + NetFlow(l.transactions)
  {
    hide Recomputed, OpeningSum, DeltaSum, RecordsPrefixSums, OpeningCount, NetFlow, IsWellShaped;
    var openings, earned := OpeningShares(l), NetRecomputed(l.accounts, l.transactions);
    forall id | id in l.accounts
      ensures Patrimonies(l)[id] == openings[id] + earned[id]
    {
      SharesAddUp(l, id);
    }
    SumPlus(openings, earned);
    assert Patrimonies(l) == map id | id in openings :: openings[id] + earned[id];
    AccountsAndTransactionsAgree(l.accounts, l.transactions);
  }

  lemma SharesAddUp(l: LedgerState, id: Id)
    requires id in l.accounts && Indexed(l, id)
    ensures Patrimonies(l)[id] == OpeningShares(l)[id] + NetRecomputed(l.accounts, l.transactions)[id]
  {
    hide Recomputed, OpeningSum, DeltaSum, RecordsPrefixSums, OpeningCount;
  }

  ghost function FlowChange(l: LedgerState, next: LedgerState): int {
    NetFlow(next.transactions) - NetFlow(l.transactions)
  }

  lemma PutChangesFlow(ts: map<Id, Transaction>, k: Id, t: Transaction)
    requires k !in ts
    ensures NetFlow(ts[k := t]) == NetFlow(ts) + Flow(t)
  {
    SumAdds(Flows(ts), k, Flow(t));
    assert Flows(ts[k := t]) == Flows(ts)[k := Flow(t)];
  }

  /** Any operation but opening an account moves net worth by the change of flow alone. */
  lemma OperationsMoveNetWorthByFlow(l: LedgerState, op: Operation)
    requires Sound(l) && !op.Open?
    ensures Current(Perform(l, op)) - Current(l) == FlowChange(l, Perform(l, op))
  {
    hide Perform, OpeningSum, NetFlow, DeltaSum, OpeningCount, RecordsPrefixSums, Recomputed, References, IsSolvent;
    PerformKeepsSound(l, op);
    var next := Perform(l, op);
    NetWorthIsOpeningsPlusFlow(l);
    NetWorthIsOpeningsPlusFlow(next);
    PerformKeepsReferences(l, op);
    forall id | id in l.accounts
      ensures next.accounts[id].kind == l.accounts[id].kind && OpeningSum(next.movements, id) == OpeningSum(l.movements, id)
    {
      PerformFollows(l, op, id);
    }
    assert OpeningShares(next) == OpeningShares(l);
  }

  lemma CreateStoresTheRow(l: LedgerState, k: Id, t: Transaction, rule: DeltaRule, cause: MovementCause)
    requires CreateChecked(l, k, t, rule, cause).Ok?
    ensures k !in l.transactions
    ensures CreateChecked(l, k, t, rule, cause).value.transactions == l.transactions[k := t]
  {
    hide RuleDeltas, WriteBalanceDeltas, IsWellShaped;
    var deltas := RuleDeltas(rule, Locked(l.accounts, IdsOf(t)), t).value;
    WriteKeepsTables(l.(transactions := l.transactions[k := t]), deltas, Some(k), cause);
  }

  /** What an accepted operation leaves in the table of transactions. */
  lemma UpdateStoresTheRow(l: LedgerState, id: Id, edit: TransactionEdit)
    requires UpdateTransaction(l, id, edit).Ok?
    ensures id in l.transactions
    ensures UpdateTransaction(l, id, edit).value.transactions == l.transactions[id := Edited(l.transactions[id], edit)]
  {
    hide EffectDeltas, WriteBalanceDeltas, IsWellShaped;
    var current := l.transactions[id];
    var next := Edited(current, edit);
    var deltas := EffectDeltas(Locked(l.accounts, IdsOf(current) + IdsOf(next)),
                               RevertedBalanceEffects(current) + BalanceEffects(next), false).value;
    WriteKeepsTables(l, deltas, Some(id), TRANSACTION_UPDATED);
  }

  lemma DeleteRemovesTheRow(l: LedgerState, id: Id)
    requires DeleteTransaction(l, id).Ok?
    ensures DeleteTransaction(l, id).value.transactions == l.transactions - {id}
  {
    hide EffectDeltas, WriteBalanceDeltas;
    var deltas := EffectDeltas(Locked(l.accounts, IdsOf(l.transactions[id])), RevertedBalanceEffects(l.transactions[id]), false).value;
    WriteKeepsTables(l.(transactions := l.transactions - {id}), deltas, Some(id), TRANSACTION_DELETED);
  }

  lemma StatusStoresTheRow(l: LedgerState, id: Id, workspaceId: Id, status: TransactionStatus, scheduled: bool)
    requires SetStatus(l, id, workspaceId, status, scheduled).Ok?
    ensures id in l.transactions
    ensures SetStatus(l, id, workspaceId, status, scheduled).value.transactions
         == l.transactions[id := l.transactions[id].(status := status)]
  {
    hide EffectDeltas, WriteBalanceDeltas;
    var updated := l.transactions[id].(status := status);
    var deltas := EffectDeltas(Locked(l.accounts, IdsOf(updated)), BalanceEffectsFrom(updated, StatusBefore(status)), scheduled).value;
    WriteKeepsTables(l.(transactions := l.transactions[id := updated]), deltas, Some(id), STATUS_CHANGED);
  }

  /** An operation that concerns transfers alone: it makes one, or finds one and leaves one. */
  predicate IsAboutTransfers(l: LedgerState, op: Operation) {
    match op
    case Open(_, _, _, _) => false
    case Limit(_, _) => true
    case Create(_, t) => t.kind == TRANSFER
    case Plan(_, t) => t.kind == TRANSFER
    case Pay(_, _, _, _, _, _) => true
    case Generate(_, _) => true
    case Update(id, edit) => id in l.transactions && l.transactions[id].kind == TRANSFER && edit.kind == TRANSFER
    case Delete(id) => id in l.transactions && l.transactions[id].kind == TRANSFER
    case Status(id, _, _, _) => id in l.transactions && l.transactions[id].kind == TRANSFER
  }

  lemma ReplacingChangesFlow(ts: map<Id, Transaction>, k: Id, t: Transaction)
    requires k in ts
    ensures NetFlow(ts[k := t]) == NetFlow(ts) - Flow(ts[k]) + Flow(t)
  {
    SumReplaces(Flows(ts), k, Flow(t));
    assert Flows(ts[k := t]) == Flows(ts)[k := Flow(t)];
  }

  lemma AccountStepsKeepRows(l: LedgerState, op: Operation)
    requires op.Limit? && Attempt(l, op).Ok?
    ensures Attempt(l, op).value.transactions == l.transactions
  {
  }

  lemma GeneratingKeepsFlow(l: LedgerState, op: Operation)
    requires op.Generate? && Attempt(l, op).Ok?
    ensures NetFlow(Attempt(l, op).value.transactions) == NetFlow(l.transactions)
  {
    PutChangesFlow(l.transactions, op.id, op.t.(status := PENDING));
  }

  /**
   Transfers and invoice payments leave net worth where it was: making one, completing it or
   taking it back, editing its accounts or amount, and deleting it. So do limits and pending rows.
   */
  lemma TransfersKeepNetWorth(l: LedgerState, op: Operation)
    requires Sound(l) && IsAboutTransfers(l, op)
    ensures Current(Perform(l, op)) == Current(l)
  {
    hide NetFlow, Current, Sound, CreateChecked, UpdateTransaction, DeleteTransaction, SetStatus, InsertPending, AdjustLimit;
    OperationsMoveNetWorthByFlow(l, op);
    if Attempt(l, op).Ok? {
      match op
      case Limit(_, _) => AccountStepsKeepRows(l, op);
      case Generate(_, _) => GeneratingKeepsFlow(l, op);
      case Create(k, t) => CreatedTransferHasNoFlow(l, k, t, ByCreateService, TRANSACTION_CREATED);
      case Plan(k, t) => CreatedTransferHasNoFlow(l, k, t, ByRepository, TRANSACTION_CREATED);
      case Pay(k, workspaceId, source, card, amount, date) =>
        CreatedTransferHasNoFlow(l, k, PaymentOf(workspaceId, source, card, amount, date), ByPaymentService, INVOICE_PAID);
      case Update(k, edit) =>
        UpdateStoresTheRow(l, k, edit);
        ReplacingChangesFlow(l.transactions, k, Edited(l.transactions[k], edit));
      case Delete(k) =>
        DeleteRemovesTheRow(l, k);
        NetFlowTakes(l.transactions, k);
      case Status(k, workspaceId, status, scheduled) =>
        StatusStoresTheRow(l, k, workspaceId, status, scheduled);
        ReplacingChangesFlow(l.transactions, k, l.transactions[k].(status := status));
    }
  }

  lemma CreatedTransferHasNoFlow(l: LedgerState, k: Id, t: Transaction, rule: DeltaRule, cause: MovementCause)
    requires t.kind == TRANSFER && CreateChecked(l, k, t, rule, cause).Ok?
    ensures NetFlow(CreateChecked(l, k, t, rule, cause).value.transactions) == NetFlow(l.transactions)
  {
    hide CreateChecked;
    CreateStoresTheRow(l, k, t, rule, cause);
    PutChangesFlow(l.transactions, k, t);
  }
}
