/** Deleting a transaction right after it was created. */
module LedgerUndo {
  import opened Results
  import opened Collections
  import opened Accounts
  import opened Transactions
  import opened Ledger
  import opened EffectAgreement
  import opened LedgerRuns
  import opened LedgerTheorems

  /** The inverse effects are accepted by the accounts as they were before the transaction. */
  predicate CanUndoTransaction(accounts: AccountTable, t: Transaction)
    requires IdsOf(t) <= accounts.Keys
  {
    t.status == COMPLETED ==>
      && CanUndo(accounts[t.accountId], if t.kind == INCOME then Income else Expense)
      && (t.kind == TRANSFER && t.destinationAccountId.Some? ==>
            CanUndo(accounts[t.destinationAccountId.value], Income))
  }

  /** Running a transaction's effects and then its reverted effects. */
  lemma EffectsThenReverted(locked: AccountTable, t: Transaction)
    requires IsWellShaped(t) && IdsOf(t) <= locked.Keys
    requires RunEffects(locked, BalanceEffects(t), false).Ok?
    ensures var undone := RunEffects(RunEffects(locked, BalanceEffects(t), false).value, RevertedBalanceEffects(t), false);
            && (undone.Ok? <==> CanUndoTransaction(locked, t))
            && (undone.Ok? ==> undone.value == locked)
  {
    if t.status == COMPLETED {
      var kind := if t.kind == INCOME then Income else Expense;
      var done, back := BuildEffect(t, t.accountId, kind, false), BuildEffect(t, t.accountId, kind, true);
      UndoingAnEffect(locked[t.accountId], kind, t.amount);
      if t.kind == TRANSFER {
        var destination := t.destinationAccountId.value;
        var arrived, left := BuildEffect(t, destination, Income, false), BuildEffect(t, destination, Income, true);
        RunTwo(locked, done, arrived, false);
        var after := RunEffects(locked, BalanceEffects(t), false).value;
        RunTwo(after, back, left, false);
        UndoingAnEffect(locked[destination], Income, t.amount);
      } else {
        RunOne(locked, done, false);
        var after := RunEffects(locked, BalanceEffects(t), false).value;
        RunOne(after, back, false);
      }
    }
  }

  /** After creating a transaction, the accounts it names hold the rows its effects gave them. */
  lemma CreatedRows(l: LedgerState, k: Id, t: Transaction, rule: DeltaRule, cause: MovementCause)
    requires cause != OPENING && IsWellShaped(t)
    requires rule == ByPaymentService ==>
               IsPayment(t) && t.accountId in l.accounts && l.accounts[t.accountId].kind != CreditCard
    requires CreateTransaction(l, k, t, rule, cause).Ok?
    ensures var next := CreateTransaction(l, k, t, rule, cause).value;
            var run := RunEffects(Locked(l.accounts, IdsOf(t)), BalanceEffects(t), false);
            && next.transactions == l.transactions[k := t]
            && next.accounts.Keys == l.accounts.Keys
            && run.Ok?
            && Locked(next.accounts, IdsOf(t)) == run.value
            && (forall id :: id in l.accounts && id !in IdsOf(t) ==> next.accounts[id] == l.accounts[id])
  {
    hide RunEffects, WriteBalanceDeltas, BalanceEffects;
    var inserted := l.(transactions := l.transactions[k := t]);
    var deltas := RuleDeltas(rule, Locked(l.accounts, IdsOf(t)), t).value;
    RuleAgrees(l, t, rule);
    var own := RuleDeltas(ByRepository, Locked(l.accounts, IdsOf(t)), t).value;
    TouchedByTransaction(t, false);
    EffectsAreResolved(t);
    WriteKeepsTables(inserted, deltas, Some(k), cause);
    var next := CreateTransaction(l, k, t, rule, cause).value;
    forall id | id in l.accounts
      ensures id in IdsOf(t) ==> id in RunEffects(Locked(l.accounts, IdsOf(t)), BalanceEffects(t), false).value
                                 && next.accounts[id] == RunEffects(Locked(l.accounts, IdsOf(t)), BalanceEffects(t), false).value[id]
      ensures id !in IdsOf(t) ==> next.accounts[id] == l.accounts[id]
    {
      SameDeltaOf(deltas, own, id);
      WriteGivesTheRows(inserted, IdsOf(t), BalanceEffects(t), false, deltas, Some(k), cause, id);
    }
    RunEffectsMoves(Locked(l.accounts, IdsOf(t)), BalanceEffects(t), false, t.accountId);
  }

  /**
   A transaction just created can be deleted again exactly when the inverse effect passes
   on the rows the accounts had before it; then every account and transaction is as before.
   */
  lemma UndoingACreation(l: LedgerState, k: Id, t: Transaction, rule: DeltaRule, cause: MovementCause)
    requires cause != OPENING && IsWellShaped(t)
    requires rule == ByPaymentService ==>
               IsPayment(t) && t.accountId in l.accounts && l.accounts[t.accountId].kind != CreditCard
    requires CreateTransaction(l, k, t, rule, cause).Ok?
    ensures var undone := DeleteTransaction(CreateTransaction(l, k, t, rule, cause).value, k);
            && (undone.Ok? <==> CanUndoTransaction(l.accounts, t))
            && (undone.Ok? ==> undone.value.accounts == l.accounts && undone.value.transactions == l.transactions)
  {
    hide RunEffects, WriteBalanceDeltas, CreateTransaction, BalanceEffects, RevertedBalanceEffects, CanUndoTransaction;
    CreatedRows(l, k, t, rule, cause);
    var next := CreateTransaction(l, k, t, rule, cause).value;
    var locked := Locked(l.accounts, IdsOf(t));
    CreatedReferences(l, k, t, rule, cause);
    EffectsThenReverted(locked, t);
    assert CanUndoTransaction(l.accounts, t) <==> CanUndoTransaction(locked, t) by {
      SameUndo(l.accounts, IdsOf(t), t);
    }
    if CanUndoTransaction(l.accounts, t) {
      DeletionRestores(l, next, k, t);
    }
  }

  lemma CreatedReferences(l: LedgerState, k: Id, t: Transaction, rule: DeltaRule, cause: MovementCause)
    requires CreateTransaction(l, k, t, rule, cause).Ok?
    ensures IdsOf(t) <= l.accounts.Keys && k !in l.transactions
  {
  }

  lemma SameUndo(accounts: AccountTable, ids: set<Id>, t: Transaction)
    requires IdsOf(t) <= accounts.Keys && IdsOf(t) <= ids
    ensures CanUndoTransaction(accounts, t) <==> CanUndoTransaction(Locked(accounts, ids), t)
  {
  }

  lemma DeletionRestores(l: LedgerState, next: LedgerState, k: Id, t: Transaction)
    requires k !in l.transactions && next.transactions == l.transactions[k := t]
    requires next.accounts.Keys == l.accounts.Keys && IdsOf(t) <= l.accounts.Keys
    requires forall id :: id in l.accounts && id !in IdsOf(t) ==> next.accounts[id] == l.accounts[id]
    requires RunEffects(Locked(next.accounts, IdsOf(t)), RevertedBalanceEffects(t), false) == Ok(Locked(l.accounts, IdsOf(t)))
    ensures DeleteTransaction(next, k).Ok?
    ensures DeleteTransaction(next, k).value.accounts == l.accounts
    ensures DeleteTransaction(next, k).value.transactions == l.transactions
  {
    hide RunEffects, WriteBalanceDeltas, RevertedBalanceEffects;
    var removed := next.(transactions := next.transactions - {k});
    assert removed.transactions == l.transactions;
    var effects := RevertedBalanceEffects(t);
    var deltas := EffectDeltas(Locked(next.accounts, IdsOf(t)), effects, false).value;
    TouchedByTransaction(t, true);
    EffectsAreResolved(t);
    WriteSucceeds(removed, deltas, Some(k), TRANSACTION_DELETED);
    WriteKeepsTables(removed, deltas, Some(k), TRANSACTION_DELETED);
    forall id | id in l.accounts
      ensures DeleteTransaction(next, k).value.accounts[id] == l.accounts[id]
    {
      WriteGivesTheRows(removed, IdsOf(t), effects, false, deltas, Some(k), TRANSACTION_DELETED, id);
    }
  }

  lemma {:induction false} WriteEachSucceeds(
      l: LedgerState, ids: seq<Id>, deltas: Deltas, transactionId: Option<Id>, cause: MovementCause)
    requires forall id :: id in ids ==> id in deltas && id in l.accounts
    ensures WriteEach(l, ids, deltas, transactionId, cause).Ok?
    decreases |ids|
  {
    if ids != [] {
      WriteEachSucceeds(Moved(l, ids[0], deltas[ids[0]], transactionId, cause), ids[1..], deltas, transactionId, cause);
    }
  }

  /** Deltas measured on locked accounts can always be written: their rows are still there. */
  lemma WriteSucceeds(l: LedgerState, deltas: Deltas, transactionId: Option<Id>, cause: MovementCause)
    requires deltas.Keys <= l.accounts.Keys
    ensures WriteBalanceDeltas(l, deltas, transactionId, cause).Ok?
  {
    WriteEachSucceeds(l, Ascending(NonZero(deltas)), deltas, transactionId, cause);
  }

  /** While accounts are solvent and cards within their limits, an undo is never refused. */
  lemma GuardedLedgersCanUndo(l: LedgerState, t: Transaction)
    requires CardsWithinLimits(l) && IdsOf(t) <= l.accounts.Keys
    ensures CanUndoTransaction(l.accounts, t)
  {
  }

  /** Creation comes down to its checks: once the deltas are computed, writing them succeeds. */
  lemma CreationSucceeds(l: LedgerState, k: Id, t: Transaction, rule: DeltaRule, cause: MovementCause)
    requires IsWellShaped(t) && k !in l.transactions && ReferencesExist(l, t)
    requires RuleDeltas(rule, Locked(l.accounts, IdsOf(t)), t).Ok?
    ensures CreateChecked(l, k, t, rule, cause).Ok?
    ensures CreateChecked(l, k, t, rule, cause) == CreateTransaction(l, k, t, rule, cause)
  {
    hide WriteBalanceDeltas, RunEffects;
    var deltas := RuleDeltas(rule, Locked(l.accounts, IdsOf(t)), t).value;
    assert deltas.Keys <= l.accounts.Keys;
    WriteSucceeds(l.(transactions := l.transactions[k := t]), deltas, Some(k), cause);
  }

  lemma RunOfThree(l: LedgerState, a: Operation, b: Operation, c: Operation)
    ensures Run(l, [a, b, c]) == Perform(Perform(Perform(l, a), b), c)
  {
    hide Perform;
    assert [a, b, c][1..] == [b, c] && [b, c][1..] == [c] && [c][1..] == [];
    assert Run(l, [a, b, c]) == Run(Perform(l, a), [b, c]) == Run(Perform(Perform(l, a), b), [c]);
  }
}
