/** What holds in every reachable ledger. */
module LedgerTheorems {
  import opened Results
  import opened Collections
  import opened Accounts
  import opened Transactions
  import opened Ledger
  import opened EffectAgreement
  import opened LedgerRuns

  /** Both indexes of an account opened in this ledger: its transactions and its movements. */
  ghost predicate Indexed(l: LedgerState, id: Id)
    requires id in l.accounts
  {
    && l.accounts[id].balance == OpeningSum(l.movements, id) + Recomputed(l.transactions, id, l.accounts[id].kind)
    && l.accounts[id].balance == DeltaSum(l.movements, id)
    && RecordsPrefixSums(l.movements, id)
    && OpeningCount(l.movements, id) == 1
  }

  predicate References(l: LedgerState) {
    && (forall k :: k in l.transactions ==> IsWellShaped(l.transactions[k]) && IdsOf(l.transactions[k]) <= l.accounts.Keys)
    && (forall i :: 0 <= i < |l.movements| ==> l.movements[i].accountId in l.accounts)
  }

  ghost predicate Sound(l: LedgerState) {
    References(l) && forall id :: id in l.accounts ==> Indexed(l, id) && IsSolvent(l.accounts[id])
  }

  // References.

  lemma {:induction false} WriteEachKeepsReferences(
      l: LedgerState, ids: seq<Id>, deltas: Deltas, transactionId: Option<Id>, cause: MovementCause)
    requires forall k :: k in ids ==> k in deltas
    requires References(l) && WriteEach(l, ids, deltas, transactionId, cause).Ok?
    ensures References(WriteEach(l, ids, deltas, transactionId, cause).value)
    decreases |ids|
  {
    if ids != [] {
      var moved := Moved(l, ids[0], deltas[ids[0]], transactionId, cause);
      assert moved.accounts.Keys == l.accounts.Keys;
      WriteEachKeepsReferences(moved, ids[1..], deltas, transactionId, cause);
    }
  }

  lemma WriteKeepsReferences(l: LedgerState, deltas: Deltas, transactionId: Option<Id>, cause: MovementCause)
    requires References(l) && WriteBalanceDeltas(l, deltas, transactionId, cause).Ok?
    ensures References(WriteBalanceDeltas(l, deltas, transactionId, cause).value)
  {
    WriteEachKeepsReferences(l, Ascending(NonZero(deltas)), deltas, transactionId, cause);
  }

  lemma CreateKeepsReferences(l: LedgerState, k: Id, t: Transaction, rule: DeltaRule, cause: MovementCause)
    requires References(l) && IsWellShaped(t) && CreateTransaction(l, k, t, rule, cause).Ok?
    ensures References(CreateTransaction(l, k, t, rule, cause).value)
    ensures CreateTransaction(l, k, t, rule, cause).value.accounts.Keys == l.accounts.Keys
  {
    hide RuleDeltas, WriteBalanceDeltas;
    var inserted := l.(transactions := l.transactions[k := t]);
    var deltas := RuleDeltas(rule, Locked(l.accounts, IdsOf(t)), t).value;
    WriteKeepsReferences(inserted, deltas, Some(k), cause);
    WriteKeepsTables(inserted, deltas, Some(k), cause);
  }

  lemma PerformKeepsReferences(l: LedgerState, op: Operation)
    requires References(l)
    ensures References(Perform(l, op))
    ensures l.accounts.Keys <= Perform(l, op).accounts.Keys
    ensures forall id :: id in Perform(l, op).accounts && id !in l.accounts ==> op.Open? && op.id == id
  {
    hide EffectDeltas, WriteBalanceDeltas, CreateTransaction;
    if Attempt(l, op).Ok? {
      match op
      case Open(_, _, _, _) =>
      case Limit(_, _) =>
      case Create(k, t) => CreateKeepsReferences(l, k, t, ByCreateService, TRANSACTION_CREATED);
      case Plan(k, t) => CreateKeepsReferences(l, k, t, ByRepository, TRANSACTION_CREATED);
      case Pay(k, workspaceId, source, card, amount, date) =>
        CreateKeepsReferences(l, k, PaymentOf(workspaceId, source, card, amount, date), ByPaymentService, INVOICE_PAID);
      case Generate(_, _) => GenerateKeepsReferences(l, op);
      case Update(_, _) => UpdateKeepsReferences(l, op);
      case Delete(_) => DeleteKeepsReferences(l, op);
      case Status(_, _, _, _) => StatusKeepsReferences(l, op);
    }
  }

  lemma GenerateKeepsReferences(l: LedgerState, op: Operation)
    requires References(l) && op.Generate? && Attempt(l, op).Ok?
    ensures References(Attempt(l, op).value) && Attempt(l, op).value.accounts == l.accounts
  {
  }

  lemma UpdateKeepsReferences(l: LedgerState, op: Operation)
    requires References(l) && op.Update? && Attempt(l, op).Ok?
    ensures References(Attempt(l, op).value) && Attempt(l, op).value.accounts.Keys == l.accounts.Keys
  {
    hide EffectDeltas, WriteBalanceDeltas, Touched, RevertedBalanceEffects, BalanceEffects;
    var current := l.transactions[op.id];
    var next := Edited(current, op.edit);
    var deltas := EffectDeltas(Locked(l.accounts, IdsOf(current) + IdsOf(next)),
                               RevertedBalanceEffects(current) + BalanceEffects(next), false).value;
    WriteKeepsReferences(l, deltas, Some(op.id), TRANSACTION_UPDATED);
    WriteKeepsTables(l, deltas, Some(op.id), TRANSACTION_UPDATED);
  }

  lemma DeleteKeepsReferences(l: LedgerState, op: Operation)
    requires References(l) && op.Delete? && Attempt(l, op).Ok?
    ensures References(Attempt(l, op).value) && Attempt(l, op).value.accounts.Keys == l.accounts.Keys
  {
    hide EffectDeltas, WriteBalanceDeltas, RevertedBalanceEffects;
    var current := l.transactions[op.id];
    var removed := l.(transactions := l.transactions - {op.id});
    var deltas := EffectDeltas(Locked(l.accounts, IdsOf(current)), RevertedBalanceEffects(current), false).value;
    WriteKeepsReferences(removed, deltas, Some(op.id), TRANSACTION_DELETED);
    WriteKeepsTables(removed, deltas, Some(op.id), TRANSACTION_DELETED);
  }

  lemma StatusKeepsReferences(l: LedgerState, op: Operation)
    requires References(l) && op.Status? && Attempt(l, op).Ok?
    ensures References(Attempt(l, op).value) && Attempt(l, op).value.accounts.Keys == l.accounts.Keys
  {
    hide EffectDeltas, WriteBalanceDeltas, BalanceEffectsFrom;
    var updated := l.transactions[op.id].(status := op.status);
    var stored := l.(transactions := l.transactions[op.id := updated]);
    var deltas := EffectDeltas(Locked(l.accounts, IdsOf(updated)),
                               BalanceEffectsFrom(updated, StatusBefore(op.status)), op.scheduled).value;
    WriteKeepsReferences(stored, deltas, Some(op.id), STATUS_CHANGED);
    WriteKeepsTables(stored, deltas, Some(op.id), STATUS_CHANGED);
  }

  // Solvency and limits.

  /** Writing measured deltas gives each account the row its effects gave it. */
  lemma WriteGivesTheRows(
      l: LedgerState, ids: set<Id>, effects: seq<BalanceEffect>, scheduled: bool,
      deltas: Deltas, transactionId: Option<Id>, cause: MovementCause, id: Id)
    requires Touched(effects) <= ids && id in l.accounts && cause != OPENING
    requires EffectDeltas(Locked(l.accounts, ids), effects, scheduled).Ok?
    requires DeltaOf(deltas, id) == DeltaOf(EffectDeltas(Locked(l.accounts, ids), effects, scheduled).value, id)
    requires WriteBalanceDeltas(l, deltas, transactionId, cause).Ok?
    ensures var after := RunEffects(Locked(l.accounts, ids), effects, scheduled).value;
            var next := WriteBalanceDeltas(l, deltas, transactionId, cause).value;
            && id in next.accounts
            && (id in ids ==> id in after && next.accounts[id] == after[id])
            && (id !in ids ==> next.accounts[id] == l.accounts[id])
  {
    hide RunEffects, WriteBalanceDeltas, DeltaSum, OpeningSum, OpeningCount, RecordsPrefixSums, SignedSum;
    WriteMovesBy(l, deltas, transactionId, cause, id);
    EffectDeltaIsSigned(l.accounts, ids, effects, scheduled, id);
    if id in ids {
      RunEffectsMoves(Locked(l.accounts, ids), effects, scheduled, id);
    } else {
      UntouchedSumIsZero(effects, id, l.accounts[id].kind);
    }
  }

  /** What a step may do to the row of an account as far as its own limits go. */
  predicate KeepsLimits(before: AccountRow, after: AccountRow, scheduled: bool) {
    IsSolvent(before) ==> IsSolvent(after) && (!scheduled && IsWithinLimit(before) ==> IsWithinLimit(after))
  }

  lemma WriteKeepsLimits(
      l: LedgerState, ids: set<Id>, effects: seq<BalanceEffect>, scheduled: bool,
      deltas: Deltas, transactionId: Option<Id>, cause: MovementCause, id: Id)
    requires Touched(effects) <= ids && id in l.accounts && cause != OPENING
    requires EffectDeltas(Locked(l.accounts, ids), effects, scheduled).Ok?
    requires DeltaOf(deltas, id) == DeltaOf(EffectDeltas(Locked(l.accounts, ids), effects, scheduled).value, id)
    requires WriteBalanceDeltas(l, deltas, transactionId, cause).Ok?
    ensures id in WriteBalanceDeltas(l, deltas, transactionId, cause).value.accounts
    ensures KeepsLimits(l.accounts[id], WriteBalanceDeltas(l, deltas, transactionId, cause).value.accounts[id], scheduled)
  {
    hide RunEffects, WriteBalanceDeltas, IsSolvent, IsWithinLimit;
    WriteGivesTheRows(l, ids, effects, scheduled, deltas, transactionId, cause, id);
    if id in ids && IsSolvent(l.accounts[id]) {
      RunEffectsKeepSolvency(Locked(l.accounts, ids), effects, scheduled, id);
    }
  }

  lemma CreateKeepsLimits(l: LedgerState, k: Id, t: Transaction, rule: DeltaRule, cause: MovementCause, id: Id)
    requires id in l.accounts && cause != OPENING && IsWellShaped(t)
    requires rule == ByPaymentService ==>
               IsPayment(t) && t.accountId in l.accounts && l.accounts[t.accountId].kind != CreditCard
    requires CreateTransaction(l, k, t, rule, cause).Ok?
    ensures id in CreateTransaction(l, k, t, rule, cause).value.accounts
    ensures KeepsLimits(l.accounts[id], CreateTransaction(l, k, t, rule, cause).value.accounts[id], false)
  {
    hide RunEffects, WriteBalanceDeltas, BalanceEffects;
    var inserted := l.(transactions := l.transactions[k := t]);
    var deltas := RuleDeltas(rule, Locked(l.accounts, IdsOf(t)), t).value;
    RuleAgrees(l, t, rule);
    SameDeltaOf(deltas, RuleDeltas(ByRepository, Locked(l.accounts, IdsOf(t)), t).value, id);
    TouchedByTransaction(t, false);
    assert Touched(BalanceEffects(t)) <= IdsOf(t) by {
      TouchedByTransaction(t, false);
      EffectsAreResolved(t);
    }
    WriteKeepsTables(inserted, deltas, Some(k), cause);
    WriteKeepsLimits(inserted, IdsOf(t), BalanceEffects(t), false, deltas, Some(k), cause, id);
  }

  lemma EffectsAreResolved(t: Transaction)
    ensures BalanceEffects(t) == ResolveEffects(t, false) && RevertedBalanceEffects(t) == ResolveEffects(t, true)
  {
  }

  predicate IsScheduled(op: Operation) {
    op.Status? && op.scheduled
  }

  /** Setting a limit where there was none, or a lower one, may leave a card above it. */
  predicate LowersLimit(l: LedgerState, op: Operation) {
    op.Limit? && op.id in l.accounts && l.accounts[op.id].kind == CreditCard
    && op.newLimit.Some?
    && (l.accounts[op.id].creditLimit.None? || op.newLimit.value < l.accounts[op.id].creditLimit.value)
  }

  /**
   Cash and investment accounts never go below zero, whatever the operation; a card stays
   between zero and its limit unless it is settled on schedule or its limit is lowered.
   */
  lemma PerformKeepsLimits(l: LedgerState, op: Operation, id: Id)
    requires id in l.accounts
    ensures id in Perform(l, op).accounts
    ensures KeepsLimits(l.accounts[id], Perform(l, op).accounts[id], IsScheduled(op) || LowersLimit(l, op))
  {
    hide EffectDeltas, WriteBalanceDeltas, CreateTransaction, BalanceEffects, RevertedBalanceEffects, BalanceEffectsFrom;
    if Attempt(l, op).Ok? {
      match op
      case Open(_, _, _, _) =>
      case Limit(_, _) =>
      case Create(k, t) => CreateKeepsLimits(l, k, t, ByCreateService, TRANSACTION_CREATED, id);
      case Plan(k, t) => CreateKeepsLimits(l, k, t, ByRepository, TRANSACTION_CREATED, id);
      case Pay(k, workspaceId, source, card, amount, date) =>
        CreateKeepsLimits(l, k, PaymentOf(workspaceId, source, card, amount, date), ByPaymentService, INVOICE_PAID, id);
      case Generate(_, _) =>
      case Update(k, edit) => UpdateKeepsLimits(l, k, edit, id);
      case Delete(k) => DeleteKeepsLimits(l, k, id);
      case Status(k, workspaceId, status, scheduled) => StatusKeepsLimits(l, k, workspaceId, status, scheduled, id);
    }
  }

  lemma UpdateKeepsLimits(l: LedgerState, k: Id, edit: TransactionEdit, id: Id)
    requires id in l.accounts && UpdateTransaction(l, k, edit).Ok?
    ensures id in UpdateTransaction(l, k, edit).value.accounts
    ensures KeepsLimits(l.accounts[id], UpdateTransaction(l, k, edit).value.accounts[id], false)
  {
    hide EffectDeltas, WriteBalanceDeltas, ResolveEffects;
    var current := l.transactions[k];
    var next := Edited(current, edit);
    var effects := RevertedBalanceEffects(current) + BalanceEffects(next);
    var deltas := EffectDeltas(Locked(l.accounts, IdsOf(current) + IdsOf(next)), effects, false).value;
    TouchedByTransaction(current, true);
    TouchedByTransaction(next, false);
    TouchedAppend(RevertedBalanceEffects(current), BalanceEffects(next));
    WriteKeepsTables(l, deltas, Some(k), TRANSACTION_UPDATED);
    WriteKeepsLimits(l, IdsOf(current) + IdsOf(next), effects, false, deltas, Some(k), TRANSACTION_UPDATED, id);
  }

  lemma DeleteKeepsLimits(l: LedgerState, k: Id, id: Id)
    requires id in l.accounts && DeleteTransaction(l, k).Ok?
    ensures id in DeleteTransaction(l, k).value.accounts
    ensures KeepsLimits(l.accounts[id], DeleteTransaction(l, k).value.accounts[id], false)
  {
    hide EffectDeltas, WriteBalanceDeltas, ResolveEffects;
    var current := l.transactions[k];
    var removed := l.(transactions := l.transactions - {k});
    var deltas := EffectDeltas(Locked(l.accounts, IdsOf(current)), RevertedBalanceEffects(current), false).value;
    TouchedByTransaction(current, true);
    WriteKeepsTables(removed, deltas, Some(k), TRANSACTION_DELETED);
    WriteKeepsLimits(removed, IdsOf(current), RevertedBalanceEffects(current), false, deltas, Some(k), TRANSACTION_DELETED, id);
  }

  lemma StatusKeepsLimits(l: LedgerState, k: Id, workspaceId: Id, status: TransactionStatus, scheduled: bool, id: Id)
    requires id in l.accounts && SetStatus(l, k, workspaceId, status, scheduled).Ok?
    ensures id in SetStatus(l, k, workspaceId, status, scheduled).value.accounts
    ensures KeepsLimits(l.accounts[id], SetStatus(l, k, workspaceId, status, scheduled).value.accounts[id], scheduled)
  {
    hide EffectDeltas, WriteBalanceDeltas, ResolveEffects;
    var updated := l.transactions[k].(status := status);
    var previous := updated.(status := StatusBefore(status));
    var effects := BalanceEffectsFrom(updated, StatusBefore(status));
    var stored := l.(transactions := l.transactions[k := updated]);
    var deltas := EffectDeltas(Locked(l.accounts, IdsOf(updated)), effects, scheduled).value;
    TouchedByTransaction(previous, true);
    TouchedByTransaction(updated, false);
    TouchedAppend(RevertedBalanceEffects(previous), BalanceEffects(updated));
    WriteKeepsTables(stored, deltas, Some(k), STATUS_CHANGED);
    WriteKeepsLimits(stored, IdsOf(updated), effects, scheduled, deltas, Some(k), STATUS_CHANGED, id);
  }

  // Runs.

  /** A newly opened account starts indexed: no stored row mentions it yet. */
  lemma OpenedIsIndexed(l: LedgerState, op: Operation)
    requires References(l) && op.Open? && op.id !in l.accounts && Attempt(l, op).Ok?
    ensures op.id in Attempt(l, op).value.accounts && Indexed(Attempt(l, op).value, op.id)
    ensures IsSolvent(Attempt(l, op).value.accounts[op.id]) && IsWithinLimit(Attempt(l, op).value.accounts[op.id])
  {
    var next := Attempt(l, op).value;
    assert next.movements[..|next.movements| - 1] == l.movements;
    UnmentionedIsEmpty(l.movements, op.id);
    var account := next.accounts[op.id].kind;
    assert forall k :: k in l.transactions ==> op.id !in IdsOf(l.transactions[k]);
    SumOfZeroes(Contributions(l.transactions, op.id, account));
  }

  lemma PerformKeepsSound(l: LedgerState, op: Operation)
    requires Sound(l)
    ensures Sound(Perform(l, op))
  {
    hide Attempt, Recomputed, DeltaSum, OpeningSum, OpeningCount, RecordsPrefixSums, IsWellShaped, IsSolvent, IsWithinLimit, References;
    PerformKeepsReferences(l, op);
    var next := Perform(l, op);
    forall id | id in next.accounts
      ensures Indexed(next, id) && IsSolvent(next.accounts[id])
    {
      if id in l.accounts {
        PerformFollows(l, op, id);
        PerformKeepsLimits(l, op, id);
      } else {
        OpenedIsIndexed(l, op);
      }
    }
  }

  /**
   In every ledger reached from an empty one by any operations: each balance is the opening
   plus the signed effects of the completed transactions that touch the account; it is also
   the sum of the account's movements, each of which recorded the running sum; and cash and
   investment accounts are not negative.
   */
  lemma {:induction false} RunsStaySound(l: LedgerState, ops: seq<Operation>)
    requires Sound(l)
    ensures Sound(Run(l, ops))
    decreases |ops|
  {
    if ops != [] {
      PerformKeepsSound(l, ops[0]);
      RunsStaySound(Perform(l, ops[0]), ops[1..]);
    }
  }

  lemma ReachableLedgersAreSound(ops: seq<Operation>)
    ensures Sound(Run(EMPTY, ops))
  {
    RunsStaySound(EMPTY, ops);
  }

  /**
   From any ledger at all, however its balances came about, no run changes by how much an
   account's balance exceeds its recomputation, or by how much it exceeds its movements.
   */
  lemma {:induction false} RunsKeepTheDrift(l: LedgerState, ops: seq<Operation>, id: Id)
    requires id in l.accounts
    ensures var r := Run(l, ops);
            && id in r.accounts
            && r.accounts[id].kind == l.accounts[id].kind
            && r.accounts[id].balance - Recomputed(r.transactions, id, l.accounts[id].kind)
               == l.accounts[id].balance - Recomputed(l.transactions, id, l.accounts[id].kind)
            && r.accounts[id].balance - DeltaSum(r.movements, id) == l.accounts[id].balance - DeltaSum(l.movements, id)
            && OpeningCount(r.movements, id) == OpeningCount(l.movements, id)
    decreases |ops|
  {
    hide Perform, Recomputed, DeltaSum, OpeningSum, OpeningCount, RecordsPrefixSums;
    if ops != [] {
      PerformFollows(l, ops[0], id);
      RunsKeepTheDrift(Perform(l, ops[0]), ops[1..], id);
    }
  }

  /** No scheduled settlement and no lowered limit anywhere in the run. */
  predicate IsGuardedRun(l: LedgerState, ops: seq<Operation>)
    decreases |ops|
  {
    ops == [] || (!IsScheduled(ops[0]) && !LowersLimit(l, ops[0]) && IsGuardedRun(Perform(l, ops[0]), ops[1..]))
  }

  predicate CardsWithinLimits(l: LedgerState) {
    forall id :: id in l.accounts ==> IsSolvent(l.accounts[id]) && IsWithinLimit(l.accounts[id])
  }

  lemma {:induction false} GuardedRunsStayWithinLimits(l: LedgerState, ops: seq<Operation>)
    requires References(l) && CardsWithinLimits(l) && IsGuardedRun(l, ops)
    ensures CardsWithinLimits(Run(l, ops))
    decreases |ops|
  {
    if ops != [] {
      GuardedStepStaysWithinLimits(l, ops[0]);
      PerformKeepsReferences(l, ops[0]);
      GuardedRunsStayWithinLimits(Perform(l, ops[0]), ops[1..]);
    }
  }

  lemma GuardedStepStaysWithinLimits(l: LedgerState, op: Operation)
    requires References(l) && CardsWithinLimits(l) && !IsScheduled(op) && !LowersLimit(l, op)
    ensures CardsWithinLimits(Perform(l, op))
  {
    hide Attempt, IsSolvent, IsWithinLimit, IsScheduled, LowersLimit, References;
    PerformKeepsReferences(l, op);
    forall id | id in Perform(l, op).accounts
      ensures IsSolvent(Perform(l, op).accounts[id]) && IsWithinLimit(Perform(l, op).accounts[id])
    {
      if id in l.accounts {
        PerformKeepsLimits(l, op, id);
      } else {
        OpenedIsIndexed(l, op);
      }
    }
  }
}
