/** Every interleaving of balance operations ends with the ledger of a serial order: that of the commits. */
module Serializability {
  import opened Results
  import opened Collections
  import opened Accounts
  import opened Transactions
  import opened Ledger
  import opened LedgerRuns
  import opened LedgerTheorems
  import opened Locking
  import opened SettlementJob

  // What an operation leaves alone.

  /** Nothing changed but the named accounts and the named transaction row. */
  predicate LeavesAlone(l: LedgerState, next: LedgerState, ids: set<Id>, rowId: Option<Id>) {
    && next.accounts.Keys == l.accounts.Keys
    && (forall id :: id in l.accounts && id !in ids ==> next.accounts[id] == l.accounts[id])
    && forall k :: k in l.transactions && Some(k) != rowId ==> k in next.transactions && next.transactions[k] == l.transactions[k]
  }

  lemma RuleDeltasStayLocked(rule: DeltaRule, locked: AccountTable, t: Transaction)
    requires RuleDeltas(rule, locked, t).Ok?
    ensures RuleDeltas(rule, locked, t).value.Keys <= locked.Keys
  {
    hide RunEffects;
  }

  lemma WriteLeavesAlone(l: LedgerState, deltas: Deltas, transactionId: Option<Id>, cause: MovementCause)
    requires cause != OPENING && WriteBalanceDeltas(l, deltas, transactionId, cause).Ok?
    ensures LeavesAlone(l, WriteBalanceDeltas(l, deltas, transactionId, cause).value, deltas.Keys, None)
    ensures WriteBalanceDeltas(l, deltas, transactionId, cause).value.transactions == l.transactions
  {
    hide WriteBalanceDeltas, DeltaSum, OpeningSum, OpeningCount, RecordsPrefixSums;
    WriteKeepsTables(l, deltas, transactionId, cause);
    forall id | id in l.accounts && id !in deltas.Keys
      ensures WriteBalanceDeltas(l, deltas, transactionId, cause).value.accounts[id] == l.accounts[id]
    {
      WriteMovesBy(l, deltas, transactionId, cause, id);
    }
  }

  lemma InsertLeavesAlone(l: LedgerState, k: Id, t: Transaction, rule: DeltaRule, cause: MovementCause)
    requires cause != OPENING && CreateTransaction(l, k, t, rule, cause).Ok?
    ensures LeavesAlone(l, CreateTransaction(l, k, t, rule, cause).value, IdsOf(t), None)
  {
    hide RuleDeltas, WriteBalanceDeltas, IdsOf;
    var locked := Locked(l.accounts, IdsOf(t));
    var deltas := RuleDeltas(rule, locked, t).value;
    RuleDeltasStayLocked(rule, locked, t);
    WriteLeavesAlone(l.(transactions := l.transactions[k := t]), deltas, Some(k), cause);
    assert deltas.Keys <= IdsOf(t);
  }

  lemma UpdateLeavesAlone(l: LedgerState, k: Id, edit: TransactionEdit)
    requires UpdateTransaction(l, k, edit).Ok?
    ensures LeavesAlone(l, UpdateTransaction(l, k, edit).value, AccountsOf(Update(k, edit), Some(l.transactions[k])), Some(k))
  {
    hide RunEffects, WriteBalanceDeltas, IdsOf;
    var current := l.transactions[k];
    var next := Edited(current, edit);
    var deltas := EffectDeltas(Locked(l.accounts, IdsOf(current) + IdsOf(next)),
                               RevertedBalanceEffects(current) + BalanceEffects(next), false).value;
    WriteLeavesAlone(l, deltas, Some(k), TRANSACTION_UPDATED);
    assert deltas.Keys <= IdsOf(current) + IdsOf(next);
  }

  lemma DeleteLeavesAlone(l: LedgerState, k: Id)
    requires DeleteTransaction(l, k).Ok?
    ensures LeavesAlone(l, DeleteTransaction(l, k).value, IdsOf(l.transactions[k]), Some(k))
  {
    hide RunEffects, WriteBalanceDeltas, IdsOf;
    var current := l.transactions[k];
    var deltas := EffectDeltas(Locked(l.accounts, IdsOf(current)), RevertedBalanceEffects(current), false).value;
    WriteLeavesAlone(l.(transactions := l.transactions - {k}), deltas, Some(k), TRANSACTION_DELETED);
    assert deltas.Keys <= IdsOf(current);
  }

  lemma StatusLeavesAlone(l: LedgerState, k: Id, workspaceId: Id, status: TransactionStatus, scheduled: bool)
    requires SetStatus(l, k, workspaceId, status, scheduled).Ok?
    ensures LeavesAlone(l, SetStatus(l, k, workspaceId, status, scheduled).value, IdsOf(l.transactions[k].(status := status)), Some(k))
  {
    hide RunEffects, WriteBalanceDeltas, IdsOf;
    var updated := l.transactions[k].(status := status);
    var deltas := EffectDeltas(Locked(l.accounts, IdsOf(updated)), BalanceEffectsFrom(updated, StatusBefore(status)), scheduled).value;
    WriteLeavesAlone(l.(transactions := l.transactions[k := updated]), deltas, Some(k), STATUS_CHANGED);
    assert deltas.Keys <= IdsOf(updated);
  }

  /** The row an operation finds stored under its lock. */
  function StoredRow(l: LedgerState, op: Operation): Option<Transaction>
    requires IsConcurrent(op)
  {
    if RowIdOf(op).Some? then Looked(l, op.id) else None
  }

  /** An operation changes only its own row and the accounts it locks. */
  lemma OperationsKeepToTheirLocks(l: LedgerState, op: Operation)
    requires IsConcurrent(op)
    ensures LeavesAlone(l, Perform(l, op), AccountsOf(op, StoredRow(l, op)), RowIdOf(op))
  {
    hide CreateTransaction, UpdateTransaction, DeleteTransaction, SetStatus, IdsOf;
    if Attempt(l, op).Ok? {
      match op
      case Create(k, t) => InsertLeavesAlone(l, k, t, ByCreateService, TRANSACTION_CREATED);
      case Plan(k, t) => InsertLeavesAlone(l, k, t, ByRepository, TRANSACTION_CREATED);
      case Pay(k, workspaceId, source, card, amount, date) =>
        InsertLeavesAlone(l, k, PaymentOf(workspaceId, source, card, amount, date), ByPaymentService, INVOICE_PAID);
      case Update(k, edit) => AcceptedFindsRow(l, op); UpdateLeavesAlone(l, k, edit);
      case Delete(k) => AcceptedFindsRow(l, op); DeleteLeavesAlone(l, k);
      case Status(k, workspaceId, status, scheduled) => AcceptedFindsRow(l, op); StatusLeavesAlone(l, k, workspaceId, status, scheduled);
    }
  }

  lemma AcceptedFindsRow(l: LedgerState, op: Operation)
    requires RowIdOf(op).Some? && Attempt(l, op).Ok?
    ensures op.id in l.transactions
  {
  }

  // A client that is up to date commits exactly what the operation would do now.

  lemma FullyLocked(l: LedgerState, client: Client)
    requires IsUpToDate(l, client) && client.taken == |LockOrder(client)|
    ensures client.held == Locked(l.accounts, AccountsOf(client.op, client.row))
  {
    var ids := AccountsOf(client.op, client.row);
    assert TakenIds(client) == ids by {
      forall id
        ensures id in TakenIds(client) <==> id in ids
      {
        assert id in LockOrder(client) <==> id in ids;
      }
    }
  }

  lemma CommitIsTheOperation(l: LedgerState, client: Client)
    requires IsUpToDate(l, client) && client.rowRead && client.taken == |LockOrder(client)|
    ensures CommitWith(l, client) == Attempt(l, client.op)
  {
    hide RuleDeltas, EffectDeltas, WriteBalanceDeltas, IdsOf, Locked, IsWellShaped;
    FullyLocked(l, client);
  }

  lemma RefusedAtOnce(l: LedgerState, op: Operation)
    requires IsConcurrent(op)
    requires !BeginAccepts(l, op) || (RowIdOf(op).Some? && !RowAccepts(op, Looked(l, op.id)))
    ensures Perform(l, op) == l
  {
    hide CreateTransaction, EffectDeltas;
  }

  // Others stay up to date.

  /** A change away from what a client has locked leaves it up to date. */
  lemma AwayFromLocks(l: LedgerState, next: LedgerState, client: Client)
    requires IsUpToDate(l, client)
    requires forall id :: id in l.accounts ==> id in next.accounts && next.accounts[id].kind == l.accounts[id].kind
    requires forall id :: id in next.accounts && id !in l.accounts ==> id !in AccountsOf(client.op, client.row)
    requires forall id :: id in client.held && id in l.accounts ==> next.accounts[id] == l.accounts[id]
    requires client.rowRead && RowIdOf(client.op).Some? ==> Looked(next, client.op.id) == Looked(l, client.op.id)
    ensures IsUpToDate(next, client)
  {
    hide Created, Edited, IdsOf;
    assert Locked(next.accounts, TakenIds(client)) == Locked(l.accounts, TakenIds(client)) by {
      forall id | id in TakenIds(client)
        ensures id in AccountsOf(client.op, client.row)
      {
        assert id in LockOrder(client);
      }
    }
  }

  lemma KindsStay(l: LedgerState, op: Operation)
    ensures forall id :: id in l.accounts ==> id in Perform(l, op).accounts && Perform(l, op).accounts[id].kind == l.accounts[id].kind
  {
    forall id | id in l.accounts
      ensures id in Perform(l, op).accounts && Perform(l, op).accounts[id].kind == l.accounts[id].kind
    {
      hide Perform, Recomputed, DeltaSum, OpeningSum, OpeningCount, RecordsPrefixSums;
      PerformFollows(l, op, id);
    }
  }

  lemma CommitKeepsOthers(m: Machine, c: nat, d: nat)
    requires Invariant(m) && Enabled(m, Commit(c)) && d in m.clients && d != c
    ensures IsUpToDate(Perform(m.db, m.clients[c].op), m.clients[d])
  {
    hide Perform, LockOrder, AccountsOf, BeginAccepts, RowAccepts, CommitWith, Run;
    var mine, other := m.clients[c], m.clients[d];
    var next := Perform(m.db, mine.op);
    OperationsKeepToTheirLocks(m.db, mine.op);
    KindsStay(m.db, mine.op);
    FullyLocked(m.db, mine);
    assert StoredRow(m.db, mine.op) == mine.row;
    forall id | id in other.held && id in m.db.accounts
      ensures next.accounts[id] == m.db.accounts[id]
    {
      assert Holds(other, Account(id)) && !Holds(mine, Account(id));
    }
    if other.rowRead && RowIdOf(other.op).Some? {
      assert Holds(other, Row(other.op.id)) && !Holds(mine, Row(other.op.id));
    }
    AwayFromLocks(m.db, next, other);
  }

  lemma SingleKeepsOthers(m: Machine, op: Operation, d: nat)
    requires Invariant(m) && Enabled(m, Single(op)) && d in m.clients
    ensures IsUpToDate(Perform(m.db, op), m.clients[d])
  {
    hide LockOrder, AccountsOf, BeginAccepts, RowAccepts, Run, Created;
    KindsStay(m.db, op);
    if op.Limit? {
      assert !Holds(m.clients[d], Account(op.id));
    }
    AwayFromLocks(m.db, Perform(m.db, op), m.clients[d]);
  }

  // Each kind of step.

  lemma HistoryGrows(m: Machine, op: Operation)
    requires m.db == Run(EMPTY, m.history)
    ensures Perform(m.db, op) == Run(EMPTY, m.history + [op])
  {
    RunAppend(EMPTY, m.history, [op]);
    RunOneOperation(m.db, op);
  }

  lemma BeginKeepsInvariant(m: Machine, c: nat, op: Operation)
    requires Invariant(m) && Enabled(m, Begin(c, op))
    ensures Invariant(Next(m, Begin(c, op)))
  {
    hide BeginAccepts, RowAccepts, Run, AccountsOf, Perform;
    if !BeginAccepts(m.db, op) {
      RefusedAtOnce(m.db, op);
      HistoryGrows(m, op);
    } else {
      var client := Client(op, RowIdOf(op).None?, None, 0, map[]);
      assert TakenIds(client) == {};
      assert Locked(m.db.accounts, {}) == map[];
      assert forall r :: !Holds(client, r);
    }
  }

  lemma LockRowKeepsInvariant(m: Machine, c: nat)
    requires Invariant(m) && Enabled(m, LockRow(c))
    ensures Invariant(Next(m, LockRow(c)))
  {
    hide BeginAccepts, RowAccepts, Run, AccountsOf, Perform;
    var client := m.clients[c];
    var row := Looked(m.db, client.op.id);
    if !RowAccepts(client.op, row) {
      RefusedAtOnce(m.db, client.op);
      HistoryGrows(m, client.op);
    } else {
      var locked := client.(rowRead := true, row := row);
      AcceptedRowIsThere(client.op, row);
      assert TakenIds(locked) == {} == TakenIds(client);
      forall r | Holds(locked, r)
        ensures Holds(client, r) || r == Row(client.op.id)
      {
      }
    }
  }

  lemma AcceptedRowIsThere(op: Operation, row: Option<Transaction>)
    requires RowIdOf(op).Some? && RowAccepts(op, row)
    ensures row.Some?
  {
  }

  lemma LockingOneMore(l: LedgerState, client: Client)
    requires IsUpToDate(l, client) && client.rowRead && client.taken < |LockOrder(client)|
    ensures IsUpToDate(l, WithAccount(client, l))
    ensures WithAccount(client, l).op == client.op && WithAccount(client, l).rowRead
    ensures forall k :: k in WithAccount(client, l).held ==> k in client.held || k == LockOrder(client)[client.taken]
  {
    hide BeginAccepts, RowAccepts, AccountsOf;
    var id := LockOrder(client)[client.taken];
    var locked := WithAccount(client, l);
    assert LockOrder(locked) == LockOrder(client);
    assert TakenIds(locked) == TakenIds(client) + {id};
    assert locked.held == Locked(l.accounts, TakenIds(locked));
  }

  lemma LockAccountKeepsInvariant(m: Machine, c: nat)
    requires Invariant(m) && Enabled(m, LockAccount(c))
    ensures Invariant(Next(m, LockAccount(c)))
  {
    hide BeginAccepts, RowAccepts, Run, AccountsOf, Perform;
    hide LockOrder, TakenIds, Locked, WithAccount;
    var client := m.clients[c];
    var id := LockOrder(client)[client.taken];
    var locked := WithAccount(client, m.db);
    LockingOneMore(m.db, client);
    forall r | Holds(locked, r)
      ensures Holds(client, r) || r == Account(id)
    {
    }
  }

  lemma CommitKeepsInvariant(m: Machine, c: nat)
    requires Invariant(m) && Enabled(m, Commit(c))
    ensures Invariant(Next(m, Commit(c)))
    ensures Next(m, Commit(c)).db == Perform(m.db, m.clients[c].op)
  {
    hide CommitWith, Attempt, IsUpToDate, Run, Holds, LockOrder;
    var client := m.clients[c];
    CommitIsTheOperation(m.db, client);
    HistoryGrows(m, client.op);
    forall d | d in m.clients && d != c
      ensures IsUpToDate(Perform(m.db, client.op), m.clients[d])
    {
      CommitKeepsOthers(m, c, d);
    }
  }

  lemma SingleKeepsInvariant(m: Machine, op: Operation)
    requires Invariant(m) && Enabled(m, Single(op))
    ensures Invariant(Next(m, Single(op)))
  {
    hide IsUpToDate, Run, Holds, Perform, SingleEnabled;
    HistoryGrows(m, op);
    forall d | d in m.clients
      ensures IsUpToDate(Perform(m.db, op), m.clients[d])
    {
      SingleKeepsOthers(m, op, d);
    }
  }

  /** Every step keeps exclusion, keeps what was read under locks true, and lands on a serial run. */
  lemma StepKeepsInvariant(m: Machine, step: MachineStep)
    requires Invariant(m) && Enabled(m, step)
    ensures Invariant(Next(m, step))
  {
    match step
    case Begin(c, op) => BeginKeepsInvariant(m, c, op);
    case LockRow(c) => LockRowKeepsInvariant(m, c);
    case LockAccount(c) => LockAccountKeepsInvariant(m, c);
    case Commit(c) => CommitKeepsInvariant(m, c);
    case Abort(c) => hide IsUpToDate, Run, Holds;
    case Single(op) => SingleKeepsInvariant(m, op);
  }

  const START := Machine(EMPTY, map[], [])

  /** The states reached by some interleaving, one enabled step after another. */
  ghost predicate IsTrace(states: seq<Machine>, steps: seq<MachineStep>) {
    && |states| == |steps| + 1
    && states[0] == START
    && forall i :: 0 <= i < |steps| ==>
         Enabled(states[i], steps[i]) && states[i + 1] == Next(states[i], steps[i])
  }

  /**
   No update is lost: after any interleaving, with any number of clients, the stored ledger is
   the one the finished operations give when run one after another in the order they finished.
   */
  lemma {:induction false} InterleavingsAreSerial(states: seq<Machine>, steps: seq<MachineStep>)
    requires IsTrace(states, steps)
    ensures Invariant(states[|steps|])
    ensures states[|steps|].db == Run(EMPTY, states[|steps|].history) && Sound(states[|steps|].db)
    decreases |steps|
  {
    hide Run, Sound, IsUpToDate, Enabled, Next;
    if steps == [] {
      RunNothing();
    } else {
      var n := |steps| - 1;
      InterleavingsAreSerial(states[..n + 1], steps[..n]);
      StepKeepsInvariant(states[n], steps[n]);
    }
    ReachableLedgersAreSound(states[|steps|].history);
  }

  lemma RunNothing()
    ensures Run(EMPTY, []) == EMPTY
  {
  }

  /** And some client can always go on: the operations never wait for one another in a circle. */
  lemma InterleavingsNeverDeadlock(states: seq<Machine>, steps: seq<MachineStep>, cycle: seq<nat>)
    requires IsTrace(states, steps) && |cycle| >= 2 && cycle[0] == cycle[|cycle| - 1]
    ensures !IsWaitChain(states[|steps|], cycle)
  {
    InterleavingsAreSerial(states, steps);
    NoWaitCycle(states[|steps|], cycle);
  }
}
