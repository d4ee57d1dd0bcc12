/** What each accepted operation leaves behind: the row, field by field, the balances, and the movements. */
module OperationResults {
  import opened Results
  import opened Collections
  import opened CivilCalendar
  import opened Accounts
  import opened Transactions
  import opened Ledger
  import opened EffectAgreement
  import opened LedgerRuns
  import opened LedgerTheorems
  import opened NetWorth

  // Movements.

  function EntriesFor(l: LedgerState, ids: seq<Id>, deltas: Deltas, transactionId: Option<Id>, cause: MovementCause): seq<Movement>
    requires forall id :: id in ids ==> id in deltas && id in l.accounts
  {
    seq(|ids|, i requires 0 <= i < |ids| =>
      Movement(ids[i], transactionId, cause, deltas[ids[i]], l.accounts[ids[i]].balance + deltas[ids[i]]))
  }

  lemma {:induction false} WriteEachAppends(
      l: LedgerState, ids: seq<Id>, deltas: Deltas, transactionId: Option<Id>, cause: MovementCause)
    requires forall id :: id in ids ==> id in deltas
    requires forall i, j :: 0 <= i < j < |ids| ==> ids[i] < ids[j]
    requires WriteEach(l, ids, deltas, transactionId, cause).Ok?
    ensures forall id :: id in ids ==> id in l.accounts
    ensures WriteEach(l, ids, deltas, transactionId, cause).value.movements
         == l.movements + EntriesFor(l, ids, deltas, transactionId, cause)
    decreases |ids|
  {
    if ids != [] {
      var moved := Moved(l, ids[0], deltas[ids[0]], transactionId, cause);
      WriteEachAppends(moved, ids[1..], deltas, transactionId, cause);
      InHeadOrTail(ids, ids[0]);
      FirstEntry(l, ids, deltas, transactionId, cause);
    }
  }

  lemma FirstEntry(l: LedgerState, ids: seq<Id>, deltas: Deltas, transactionId: Option<Id>, cause: MovementCause)
    requires ids != [] && ids[0] in deltas && ids[0] in l.accounts && ids[0] !in ids[1..]
    requires var moved := Moved(l, ids[0], deltas[ids[0]], transactionId, cause);
             forall id :: id in ids[1..] ==> id in deltas && id in moved.accounts
    ensures forall id :: id in ids ==> id in deltas && id in l.accounts
    ensures var moved := Moved(l, ids[0], deltas[ids[0]], transactionId, cause);
            l.movements + EntriesFor(l, ids, deltas, transactionId, cause)
            == moved.movements + EntriesFor(moved, ids[1..], deltas, transactionId, cause)
  {
    var moved := Moved(l, ids[0], deltas[ids[0]], transactionId, cause);
    MovedRow(l, ids[0], deltas[ids[0]], transactionId, cause);
    hide Moved, EntriesFor;
    assert ids == [ids[0]] + ids[1..];
    EntriesUnroll(l, ids, deltas, transactionId, cause);
    EntriesOfSameRows(l, moved, ids[1..], deltas, transactionId, cause);
  }

  lemma EntriesUnroll(l: LedgerState, ids: seq<Id>, deltas: Deltas, transactionId: Option<Id>, cause: MovementCause)
    requires ids != [] && forall id :: id in ids ==> id in deltas && id in l.accounts
    ensures EntriesFor(l, ids, deltas, transactionId, cause)
         == [Movement(ids[0], transactionId, cause, deltas[ids[0]], l.accounts[ids[0]].balance + deltas[ids[0]])]
            + EntriesFor(l, ids[1..], deltas, transactionId, cause)
  {
  }

  lemma EntriesOfSameRows(
      l: LedgerState, m: LedgerState, ids: seq<Id>, deltas: Deltas, transactionId: Option<Id>, cause: MovementCause)
    requires forall id :: id in ids ==> id in deltas && id in l.accounts && id in m.accounts && m.accounts[id] == l.accounts[id]
    ensures EntriesFor(l, ids, deltas, transactionId, cause) == EntriesFor(m, ids, deltas, transactionId, cause)
  {
  }

  lemma MovedRow(l: LedgerState, id: Id, delta: int, transactionId: Option<Id>, cause: MovementCause)
    requires id in l.accounts
    ensures var moved := Moved(l, id, delta, transactionId, cause);
            && moved.movements == l.movements + [Movement(id, transactionId, cause, delta, l.accounts[id].balance + delta)]
            && moved.accounts.Keys == l.accounts.Keys
            && forall other :: other in l.accounts && other != id ==> moved.accounts[other] == l.accounts[other]
  {
  }

  /**
   The movements of one operation: in order of account, one for each account whose balance it
   changed, with the transaction, the cause, the change and the new balance; earlier ones stay.
   */
  ghost predicate Appends(l: LedgerState, next: LedgerState, transactionId: Option<Id>, cause: MovementCause) {
    var n := |l.movements|;
    && n <= |next.movements| && next.movements[..n] == l.movements
    && (forall i :: n <= i < |next.movements| ==> IsEntryOf(l, next, next.movements[i], transactionId, cause))
    && (forall i, j :: n <= i < j < |next.movements| ==> next.movements[i].accountId < next.movements[j].accountId)
    && (forall id :: id in l.accounts && id in next.accounts && next.accounts[id].balance != l.accounts[id].balance ==>
          exists i :: n <= i < |next.movements| && next.movements[i].accountId == id)
  }

  predicate IsEntryOf(l: LedgerState, next: LedgerState, m: Movement, transactionId: Option<Id>, cause: MovementCause) {
    && m.accountId in l.accounts && m.accountId in next.accounts
    && m.transactionId == transactionId && m.cause == cause
    && m.delta == next.accounts[m.accountId].balance - l.accounts[m.accountId].balance && m.delta != 0
    && m.balanceAfter == next.accounts[m.accountId].balance
  }

  /** What one written delta says, once all are written. */
  lemma WrittenEntry(l: LedgerState, deltas: Deltas, transactionId: Option<Id>, cause: MovementCause, id: Id)
    requires cause != OPENING && id in NonZero(deltas) && id in l.accounts
    requires WriteBalanceDeltas(l, deltas, transactionId, cause).Ok?
    ensures IsEntryOf(l, WriteBalanceDeltas(l, deltas, transactionId, cause).value,
                      Movement(id, transactionId, cause, deltas[id], l.accounts[id].balance + deltas[id]), transactionId, cause)
  {
    hide WriteBalanceDeltas, DeltaSum, OpeningSum, OpeningCount, RecordsPrefixSums;
    WriteMovesBy(l, deltas, transactionId, cause, id);
  }

  lemma UnwrittenBalanceStays(l: LedgerState, deltas: Deltas, transactionId: Option<Id>, cause: MovementCause, id: Id)
    requires cause != OPENING && id !in NonZero(deltas) && id in l.accounts
    requires WriteBalanceDeltas(l, deltas, transactionId, cause).Ok?
    ensures var next := WriteBalanceDeltas(l, deltas, transactionId, cause).value;
            id in next.accounts && next.accounts[id].balance == l.accounts[id].balance
  {
    hide WriteBalanceDeltas, DeltaSum, OpeningSum, OpeningCount, RecordsPrefixSums;
    WriteMovesBy(l, deltas, transactionId, cause, id);
  }

  lemma EntriesSayWhatWasWritten(l: LedgerState, deltas: Deltas, transactionId: Option<Id>, cause: MovementCause, k: nat)
    requires cause != OPENING && WriteBalanceDeltas(l, deltas, transactionId, cause).Ok?
    requires forall id :: id in Ascending(NonZero(deltas)) ==> id in l.accounts
    requires k < |Ascending(NonZero(deltas))|
    ensures var ids := Ascending(NonZero(deltas));
            var entry := EntriesFor(l, ids, deltas, transactionId, cause)[k];
            entry.accountId == ids[k] && IsEntryOf(l, WriteBalanceDeltas(l, deltas, transactionId, cause).value, entry, transactionId, cause)
  {
    hide WriteBalanceDeltas, IsEntryOf;
    var ids := Ascending(NonZero(deltas));
    assert ids[k] in ids;
    WrittenEntry(l, deltas, transactionId, cause, ids[k]);
  }

  lemma ChangedIsWritten(l: LedgerState, deltas: Deltas, transactionId: Option<Id>, cause: MovementCause, id: Id)
    requires cause != OPENING && WriteBalanceDeltas(l, deltas, transactionId, cause).Ok?
    requires var next := WriteBalanceDeltas(l, deltas, transactionId, cause).value;
             id in l.accounts && id in next.accounts && next.accounts[id].balance != l.accounts[id].balance
    ensures id in Ascending(NonZero(deltas))
  {
    hide WriteBalanceDeltas;
    if id !in NonZero(deltas) { UnwrittenBalanceStays(l, deltas, transactionId, cause, id); }
  }

  lemma AppendedEntries(l: LedgerState, next: LedgerState, ids: seq<Id>, entries: seq<Movement>, transactionId: Option<Id>, cause: MovementCause)
    requires next.movements == l.movements + entries && |entries| == |ids|
    requires forall i, j :: 0 <= i < j < |ids| ==> ids[i] < ids[j]
    requires forall k :: 0 <= k < |ids| ==> entries[k].accountId == ids[k] && IsEntryOf(l, next, entries[k], transactionId, cause)
    requires forall id :: id in l.accounts && id in next.accounts && next.accounts[id].balance != l.accounts[id].balance ==> id in ids
    ensures Appends(l, next, transactionId, cause)
  {
    hide IsEntryOf;
    var n := |l.movements|;
    assert forall i :: n <= i < |next.movements| ==> next.movements[i] == entries[i - n];
    forall id | id in ids
      ensures exists i :: n <= i < |next.movements| && next.movements[i].accountId == id
    {
      var k :| 0 <= k < |ids| && ids[k] == id;
      assert next.movements[n + k] == entries[k];
    }
  }

  lemma WriteAppends(l: LedgerState, deltas: Deltas, transactionId: Option<Id>, cause: MovementCause)
    requires cause != OPENING && WriteBalanceDeltas(l, deltas, transactionId, cause).Ok?
    ensures Appends(l, WriteBalanceDeltas(l, deltas, transactionId, cause).value, transactionId, cause)
  {
    var ids, next := Ascending(NonZero(deltas)), WriteBalanceDeltas(l, deltas, transactionId, cause).value;
    WriteEachAppends(l, ids, deltas, transactionId, cause);
    hide WriteBalanceDeltas, IsEntryOf, EntriesFor, Appends, NonZero;
    var entries := EntriesFor(l, ids, deltas, transactionId, cause);
    OneEntryEach(l, ids, deltas, transactionId, cause);
    forall k | 0 <= k < |ids|
      ensures entries[k].accountId == ids[k] && IsEntryOf(l, next, entries[k], transactionId, cause)
    {
      EntriesSayWhatWasWritten(l, deltas, transactionId, cause, k);
    }
    forall id | id in l.accounts && id in next.accounts && next.accounts[id].balance != l.accounts[id].balance
      ensures id in ids
    {
      ChangedIsWritten(l, deltas, transactionId, cause, id);
    }
    AppendedEntries(l, next, ids, entries, transactionId, cause);
  }

  lemma OneEntryEach(l: LedgerState, ids: seq<Id>, deltas: Deltas, transactionId: Option<Id>, cause: MovementCause)
    requires forall id :: id in ids ==> id in deltas && id in l.accounts
    ensures |EntriesFor(l, ids, deltas, transactionId, cause)| == |ids|
  {
  }

  /** Appending looks at balances and movements alone. */
  lemma AppendsOfSameAccounts(l: LedgerState, stored: LedgerState, next: LedgerState, transactionId: Option<Id>, cause: MovementCause)
    requires l.accounts == stored.accounts && l.movements == stored.movements && Appends(stored, next, transactionId, cause)
    ensures Appends(l, next, transactionId, cause)
  {
  }

  // Balances.

  /** Nothing of an account but its balance changes, and that by the given amount. */
  predicate MovesOnly(l: LedgerState, next: LedgerState, account: Id, delta: int)
    requires account in l.accounts
  {
    account in next.accounts
    && next.accounts[account].kind == l.accounts[account].kind
    && next.accounts[account].creditLimit == l.accounts[account].creditLimit
    && next.accounts[account].balance == l.accounts[account].balance + delta
  }

  /** The effect of a row on one account, from its fields. */
  function ShareOf(
      status: TransactionStatus, kind: TransactionType, source: Id, destination: Option<Id>, amount: int,
      account: Id, isCard: bool): int
  {
    if status != COMPLETED then 0
    else
      var sign := if isCard then -1 else 1;
      match kind
      case INCOME => if account == source then sign * amount else 0
      case EXPENSE => if account == source then -sign * amount else 0
      case TRANSFER =>
        (if account == source then -sign * amount else 0) + (if Some(account) == destination then sign * amount else 0)
  }

  lemma ContributionIsTheShare(t: Transaction, account: Id, kind: AccountKind)
    ensures Contribution(t, account, kind)
         == ShareOf(t.status, t.kind, t.accountId, t.destinationAccountId, t.amount, account, kind == CreditCard)
  {
  }

  function RowShare(t: Transaction, account: Id, isCard: bool): int {
    ShareOf(t.status, t.kind, t.accountId, t.destinationAccountId, t.amount, account, isCard)
  }

  predicate IsCard(l: LedgerState, account: Id)
    requires account in l.accounts
  {
    l.accounts[account].kind == CreditCard
  }

  lemma WriteKeepsLimitsOf(l: LedgerState, deltas: Deltas, transactionId: Option<Id>, cause: MovementCause, account: Id)
    requires cause != OPENING && account in l.accounts && WriteBalanceDeltas(l, deltas, transactionId, cause).Ok?
    ensures var next := WriteBalanceDeltas(l, deltas, transactionId, cause).value;
            account in next.accounts && next.accounts[account].creditLimit == l.accounts[account].creditLimit
  {
    hide WriteBalanceDeltas, DeltaSum, OpeningSum, OpeningCount, RecordsPrefixSums;
    WriteMovesBy(l, deltas, transactionId, cause, account);
  }

  // Creating, planning, paying.

  lemma InsertedRow(l: LedgerState, id: Id, t: Transaction, rule: DeltaRule, cause: MovementCause)
    requires cause != OPENING && CreateChecked(l, id, t, rule, cause).Ok?
    ensures var next := CreateChecked(l, id, t, rule, cause).value;
            && id !in l.transactions && next.transactions == l.transactions[id := t]
            && next.accounts.Keys == l.accounts.Keys
            && Appends(l, next, Some(id), cause)
            && forall account :: account in l.accounts ==> next.accounts[account].creditLimit == l.accounts[account].creditLimit
  {
    hide RuleDeltas, WriteBalanceDeltas, IsWellShaped, Appends;
    var stored := l.(transactions := l.transactions[id := t]);
    var deltas := RuleDeltas(rule, Locked(l.accounts, IdsOf(t)), t).value;
    CreateStoresTheRow(l, id, t, rule, cause);
    WriteKeepsTables(stored, deltas, Some(id), cause);
    WriteAppends(stored, deltas, Some(id), cause);
    AppendsOfSameAccounts(l, stored, CreateChecked(l, id, t, rule, cause).value, Some(id), cause);
    forall account | account in l.accounts
      ensures CreateChecked(l, id, t, rule, cause).value.accounts[account].creditLimit == l.accounts[account].creditLimit
    {
      WriteKeepsLimitsOf(stored, deltas, Some(id), cause, account);
    }
  }

  lemma PutMovesBy(l: LedgerState, op: Operation, t: Transaction, account: Id)
    requires account in l.accounts && Perform(l, op).transactions == l.transactions[op.id := t]
    ensures var next := Perform(l, op);
            && account in next.accounts && next.accounts[account].kind == l.accounts[account].kind
            && next.accounts[account].balance - l.accounts[account].balance
               == RowShare(t, account, IsCard(l, account))
                  - (if op.id in l.transactions then RowShare(l.transactions[op.id], account, IsCard(l, account)) else 0)
  {
    hide Perform, Recomputed, DeltaSum, OpeningSum, OpeningCount, RecordsPrefixSums, Contribution, ShareOf;
    PerformFollows(l, op, account);
    RecomputedAfterPut(l.transactions, op.id, t, account, l.accounts[account].kind);
    ContributionIsTheShare(t, account, l.accounts[account].kind);
    if op.id in l.transactions {
      ContributionIsTheShare(l.transactions[op.id], account, l.accounts[account].kind);
    }
  }

  /** A created transaction is stored as it was asked for, under an id of its own, and moves balances by its own share. */
  lemma AcceptedCreate(l: LedgerState, id: Id, t: Transaction, account: Id)
    requires Attempt(l, Create(id, t)).Ok? && account in l.accounts
    ensures var next := Attempt(l, Create(id, t)).value;
            && id !in l.transactions && next.transactions == l.transactions[id := t]
            && MovesOnly(l, next, account, RowShare(t, account, IsCard(l, account)))
            && Appends(l, next, Some(id), TRANSACTION_CREATED)
  {
    hide CreateChecked, Appends, RowShare;
    InsertedRow(l, id, t, ByCreateService, TRANSACTION_CREATED);
    PutMovesBy(l, Create(id, t), t, account);
  }

  /** The first row of an installment plan is stored and moves balances in the same way. */
  lemma AcceptedPlan(l: LedgerState, id: Id, t: Transaction, account: Id)
    requires Attempt(l, Plan(id, t)).Ok? && account in l.accounts
    ensures var next := Attempt(l, Plan(id, t)).value;
            && id !in l.transactions && next.transactions == l.transactions[id := t]
            && MovesOnly(l, next, account, RowShare(t, account, IsCard(l, account)))
            && Appends(l, next, Some(id), TRANSACTION_CREATED)
  {
    hide CreateChecked, Appends, RowShare;
    InsertedRow(l, id, t, ByRepository, TRANSACTION_CREATED);
    PutMovesBy(l, Plan(id, t), t, account);
  }

  /**
   An accepted payment takes the amount from the source and off what the card owes, touches no other
   account, and is stored as a completed transfer of that day.
   */
  lemma AcceptedPay(l: LedgerState, op: Operation, account: Id)
    requires op.Pay? && Attempt(l, op).Ok? && account in l.accounts
    ensures op.amount > 0 && op.source in l.accounts && op.card in l.accounts && op.source != op.card
    ensures IsCard(l, op.card) && !IsCard(l, op.source)
    ensures var next := Attempt(l, op).value;
            && op.id !in l.transactions && op.id in next.transactions
            && next.transactions == l.transactions[op.id := next.transactions[op.id]]
            && (var row := next.transactions[op.id];
                && row.workspaceId == op.workspaceId && row.accountId == op.source && row.destinationAccountId == Some(op.card)
                && row.amount == op.amount && row.date == op.date && row.kind == TRANSFER && row.status == COMPLETED
                && row.recurringId == None)
            && MovesOnly(l, next, account, if account == op.source || account == op.card then -op.amount else 0)
            && Appends(l, next, Some(op.id), INVOICE_PAID)
  {
    hide CreateChecked, Appends;
    var t := PaymentOf(op.workspaceId, op.source, op.card, op.amount, op.date);
    PaymentsAreChecked(l, op);
    InsertedRow(l, op.id, t, ByPaymentService, INVOICE_PAID);
    PutMovesBy(l, op, t, account);
  }

  lemma PaymentsAreChecked(l: LedgerState, op: Operation)
    requires op.Pay? && Attempt(l, op).Ok?
    ensures op.amount > 0
  {
    hide RuleDeltas, WriteBalanceDeltas;
  }

  /** Why a payment is refused before any account is locked, first reason first. */
  lemma RefusedPay(l: LedgerState, op: Operation)
    requires op.Pay?
    ensures op.card !in l.accounts ==> Attempt(l, op) == Err(AccountNotFound)
    ensures op.card in l.accounts && op.source == op.card ==> Attempt(l, op) == Err(TransactionRefused(SourceAndDestinationMustDiffer))
    ensures op.card in l.accounts && op.source != op.card && !IsCard(l, op.card) ==> Attempt(l, op) == Err(NotACreditCard)
    ensures op.card in l.accounts && op.source != op.card && IsCard(l, op.card) && op.source !in l.accounts ==>
              Attempt(l, op) == Err(AccountNotFound)
    ensures op.card in l.accounts && op.source != op.card && IsCard(l, op.card) && op.source in l.accounts && IsCard(l, op.source) ==>
              Attempt(l, op) == Err(SourceIsACreditCard)
    ensures op.card in l.accounts && op.source != op.card && IsCard(l, op.card) && op.source in l.accounts && !IsCard(l, op.source) ==>
              (op.amount <= 0 ==> Attempt(l, op) == Err(TransactionRefused(InvalidAmount)))
  {
    hide CreateTransaction;
  }

  // Updating, deleting, changing the status.

  /** No other transaction changes, appears or goes. */
  predicate OthersStay(l: LedgerState, next: LedgerState, id: Id) {
    && next.transactions.Keys - {id} == l.transactions.Keys - {id}
    && forall k :: k in l.transactions && k != id ==> k in next.transactions && next.transactions[k] == l.transactions[k]
  }

  lemma RowMovesAppends(l: LedgerState, stored: LedgerState, deltas: Deltas, id: Id, cause: MovementCause)
    requires stored.accounts == l.accounts && stored.movements == l.movements && cause != OPENING
    requires WriteBalanceDeltas(stored, deltas, Some(id), cause).Ok?
    ensures var next := WriteBalanceDeltas(stored, deltas, Some(id), cause).value;
            && Appends(l, next, Some(id), cause) && next.accounts.Keys == l.accounts.Keys
            && forall account :: account in l.accounts ==> next.accounts[account].creditLimit == l.accounts[account].creditLimit
  {
    hide WriteBalanceDeltas, Appends;
    WriteAppends(stored, deltas, Some(id), cause);
    AppendsOfSameAccounts(l, stored, WriteBalanceDeltas(stored, deltas, Some(id), cause).value, Some(id), cause);
    WriteKeepsTables(stored, deltas, Some(id), cause);
    forall account | account in l.accounts
      ensures WriteBalanceDeltas(stored, deltas, Some(id), cause).value.accounts[account].creditLimit == l.accounts[account].creditLimit
    {
      WriteKeepsLimitsOf(stored, deltas, Some(id), cause, account);
    }
  }

  lemma UpdateAppends(l: LedgerState, id: Id, edit: TransactionEdit)
    requires UpdateTransaction(l, id, edit).Ok?
    ensures var next := UpdateTransaction(l, id, edit).value;
            && Appends(l, next, Some(id), TRANSACTION_UPDATED)
            && forall account :: account in l.accounts ==> account in next.accounts && next.accounts[account].creditLimit == l.accounts[account].creditLimit
  {
    hide EffectDeltas, WriteBalanceDeltas, IsWellShaped;
    var current := l.transactions[id];
    var next := Edited(current, edit);
    var deltas := EffectDeltas(Locked(l.accounts, IdsOf(current) + IdsOf(next)),
                               RevertedBalanceEffects(current) + BalanceEffects(next), false).value;
    RowMovesAppends(l, l, deltas, id, TRANSACTION_UPDATED);
  }

  /**
   An accepted update stores what was asked, field by field, keeps what an edit cannot change, and
   moves each balance by the share of the new fields less the share of the old row.
   */
  lemma AcceptedUpdate(l: LedgerState, id: Id, edit: TransactionEdit, account: Id)
    requires Attempt(l, Update(id, edit)).Ok? && account in l.accounts
    ensures var next := Attempt(l, Update(id, edit)).value;
            && id in l.transactions && id in next.transactions && OthersStay(l, next, id)
            && (var was, row := l.transactions[id], next.transactions[id];
                && row.amount == edit.amount && row.accountId == edit.accountId
                && row.destinationAccountId == edit.destinationAccountId && row.date == edit.date
                && row.kind == edit.kind && row.status == edit.status
                && row.workspaceId == was.workspaceId && row.recurringId == was.recurringId
                && MovesOnly(l, next, account,
                     ShareOf(edit.status, edit.kind, edit.accountId, edit.destinationAccountId, edit.amount, account, IsCard(l, account))
                     - ShareOf(was.status, was.kind, was.accountId, was.destinationAccountId, was.amount, account, IsCard(l, account))))
            && Appends(l, next, Some(id), TRANSACTION_UPDATED)
  {
    hide UpdateTransaction, Appends, ShareOf;
    UpdateStoresTheRow(l, id, edit);
    UpdateAppends(l, id, edit);
    PutMovesBy(l, Update(id, edit), Edited(l.transactions[id], edit), account);
  }

  lemma DeleteAppends(l: LedgerState, id: Id)
    requires DeleteTransaction(l, id).Ok?
    ensures var next := DeleteTransaction(l, id).value;
            && Appends(l, next, Some(id), TRANSACTION_DELETED)
            && forall account :: account in l.accounts ==> account in next.accounts && next.accounts[account].creditLimit == l.accounts[account].creditLimit
  {
    hide EffectDeltas, WriteBalanceDeltas;
    var current := l.transactions[id];
    var deltas := EffectDeltas(Locked(l.accounts, IdsOf(current)), RevertedBalanceEffects(current), false).value;
    RowMovesAppends(l, l.(transactions := l.transactions - {id}), deltas, id, TRANSACTION_DELETED);
  }

  /** An accepted delete removes the row and takes its share back. */
  lemma AcceptedDelete(l: LedgerState, id: Id, account: Id)
    requires Attempt(l, Delete(id)).Ok? && account in l.accounts
    ensures var next := Attempt(l, Delete(id)).value;
            && id in l.transactions && id !in next.transactions && OthersStay(l, next, id)
            && MovesOnly(l, next, account, -RowShare(l.transactions[id], account, IsCard(l, account)))
            && Appends(l, next, Some(id), TRANSACTION_DELETED)
  {
    hide DeleteTransaction, Appends, ShareOf, Recomputed, DeltaSum, OpeningSum, OpeningCount, RecordsPrefixSums, Contribution;
    DeleteRemovesTheRow(l, id);
    DeletedIsThere(l, id);
    DeleteAppends(l, id);
    PerformFollows(l, Delete(id), account);
    RecomputedAfterRemoval(l.transactions, id, account, l.accounts[account].kind);
    ContributionIsTheShare(l.transactions[id], account, l.accounts[account].kind);
  }

  lemma DeletedIsThere(l: LedgerState, id: Id)
    requires DeleteTransaction(l, id).Ok?
    ensures id in l.transactions
  {
  }

  lemma StatusAppends(l: LedgerState, id: Id, workspaceId: Id, status: TransactionStatus, scheduled: bool)
    requires SetStatus(l, id, workspaceId, status, scheduled).Ok?
    ensures var next := SetStatus(l, id, workspaceId, status, scheduled).value;
            && l.transactions[id].workspaceId == workspaceId && l.transactions[id].status != status
            && Appends(l, next, Some(id), STATUS_CHANGED)
            && forall account :: account in l.accounts ==> account in next.accounts && next.accounts[account].creditLimit == l.accounts[account].creditLimit
  {
    hide EffectDeltas, WriteBalanceDeltas;
    var updated := l.transactions[id].(status := status);
    var deltas := EffectDeltas(Locked(l.accounts, IdsOf(updated)), BalanceEffectsFrom(updated, StatusBefore(status)), scheduled).value;
    RowMovesAppends(l, l.(transactions := l.transactions[id := updated]), deltas, id, STATUS_CHANGED);
  }

  /** An accepted status change changes the status alone, adding the row's share or taking it back. */
  lemma AcceptedStatus(l: LedgerState, op: Operation, account: Id)
    requires op.Status? && Attempt(l, op).Ok? && account in l.accounts
    ensures var next := Attempt(l, op).value;
            && op.id in l.transactions && op.id in next.transactions && OthersStay(l, next, op.id)
            && (var was, row := l.transactions[op.id], next.transactions[op.id];
                && was.workspaceId == op.workspaceId && was.status != op.status && row == was.(status := op.status)
                && MovesOnly(l, next, account, RowShare(row, account, IsCard(l, account)) - RowShare(was, account, IsCard(l, account))))
            && Appends(l, next, Some(op.id), STATUS_CHANGED)
  {
    hide SetStatus, Appends, ShareOf;
    StatusStoresTheRow(l, op.id, op.workspaceId, op.status, op.scheduled);
    StatusAppends(l, op.id, op.workspaceId, op.status, op.scheduled);
    PutMovesBy(l, op, l.transactions[op.id].(status := op.status), account);
  }

  /** Why a row is not found or not changed. */
  lemma RefusedRows(l: LedgerState, op: Operation)
    requires op.Update? || op.Delete? || op.Status?
    ensures op.id !in l.transactions ==> Attempt(l, op) == Err(TransactionNotFound)
    ensures op.Status? && op.id in l.transactions && l.transactions[op.id].workspaceId != op.workspaceId ==>
              Attempt(l, op) == Err(TransactionNotFound)
    ensures op.Status? && op.id in l.transactions && l.transactions[op.id].workspaceId == op.workspaceId
            && l.transactions[op.id].status == op.status ==>
              Attempt(l, op) == Err(if op.status == COMPLETED then TransactionAlreadyCompleted else TransactionAlreadyPending)
  {
    hide EffectDeltas, WriteBalanceDeltas;
  }

  // The others.

  /** A generated row is stored pending, and moves nothing. */
  lemma AcceptedGenerate(l: LedgerState, id: Id, t: Transaction)
    requires Attempt(l, Generate(id, t)).Ok?
    ensures var next := Attempt(l, Generate(id, t)).value;
            && id !in l.transactions && id in next.transactions && OthersStay(l, next, id)
            && (var row := next.transactions[id];
                && row.workspaceId == t.workspaceId && row.accountId == t.accountId
                && row.destinationAccountId == t.destinationAccountId && row.amount == t.amount && row.date == t.date
                && row.kind == t.kind && row.recurringId == t.recurringId && row.status == PENDING)
            && next.accounts == l.accounts && next.movements == l.movements
  {
  }

  /** An opened account starts at the balance asked for, a card at zero, with one movement of it. */
  lemma AcceptedOpen(l: LedgerState, op: Operation)
    requires op.Open? && Attempt(l, op).Ok?
    ensures var next := Attempt(l, op).value;
            && op.id !in l.accounts && op.id in next.accounts && next.accounts == l.accounts[op.id := next.accounts[op.id]]
            && (var row := next.accounts[op.id];
                && row.kind == op.kind
                && row.balance == (if op.kind == CreditCard then 0 else op.balance)
                && row.creditLimit == (if op.kind == CreditCard then op.creditLimit else None)
                && next.movements == l.movements + [Movement(op.id, None, OPENING, row.balance, row.balance)])
            && next.transactions == l.transactions
    ensures op.kind == Cash || op.kind == Investment ==> op.balance >= 0
    ensures op.kind == CreditCard && op.creditLimit.Some? ==> op.creditLimit.value > 0
  {
  }

  /** And exactly those can be opened. */
  lemma OpeningIsAccepted(l: LedgerState, op: Operation)
    requires op.Open?
    ensures Attempt(l, op).Ok?
            <==> op.id !in l.accounts
                 && (op.kind == Cash || op.kind == Investment ==> op.balance >= 0)
                 && (op.kind == CreditCard && op.creditLimit.Some? ==> op.creditLimit.value > 0)
  {
  }

  /** A limit edit changes a card's limit and nothing else; on other accounts it changes nothing. */
  lemma AcceptedLimit(l: LedgerState, op: Operation)
    requires op.Limit?
    ensures Attempt(l, op).Ok? <==> op.id in l.accounts && (IsCard(l, op.id) && op.newLimit.Some? ==> op.newLimit.value > 0)
    ensures Attempt(l, op).Ok? ==>
              var next := Attempt(l, op).value;
              && next.transactions == l.transactions && next.movements == l.movements && next.accounts.Keys == l.accounts.Keys
              && (forall id :: id in l.accounts && (id != op.id || !IsCard(l, id)) ==> next.accounts[id] == l.accounts[id])
              && (IsCard(l, op.id) ==>
                    && next.accounts[op.id].kind == CreditCard && next.accounts[op.id].balance == l.accounts[op.id].balance
                    && next.accounts[op.id].creditLimit == op.newLimit)
  {
  }
}
