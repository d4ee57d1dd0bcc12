/**
 Balance operations running at the same time. Each locks at most one transaction row, then its
 account rows in ascending order of id, and publishes everything it wrote when it commits.
 */
module Locking {
  import opened Results
  import opened Collections
  import opened Accounts
  import opened Transactions
  import opened Ledger
  import opened LedgerRuns

  datatype Resource = Row(id: Id) | Account(id: Id)

  /** A database transaction in flight: what it has locked, and what it read under those locks. */
  datatype Client = Client(op: Operation, rowRead: bool, row: Option<Transaction>, taken: nat, held: AccountTable)

  datatype Machine = Machine(db: LedgerState, clients: map<nat, Client>, history: seq<Operation>)

  predicate IsConcurrent(op: Operation) {
    !op.Open? && !op.Limit? && !op.Generate?
  }

  /** The transaction row an operation locks first, if any. */
  function RowIdOf(op: Operation): Option<Id> {
    if op.Update? || op.Delete? || op.Status? then Some(op.id) else None
  }

  function AccountsOf(op: Operation, row: Option<Transaction>): set<Id> {
    match op
    case Create(_, t) => IdsOf(t)
    case Plan(_, t) => IdsOf(t)
    case Pay(_, workspaceId, source, card, amount, date) => IdsOf(PaymentOf(workspaceId, source, card, amount, date))
    case Update(_, edit) => if row.None? then {} else IdsOf(row.value) + IdsOf(Edited(row.value, edit))
    case Delete(_) => if row.None? then {} else IdsOf(row.value)
    case Status(_, _, status, _) => if row.None? then {} else IdsOf(row.value.(status := status))
    case _ => {}
  }

  function LockOrder(client: Client): (ids: seq<Id>)
    ensures forall i, j :: 0 <= i < j < |ids| ==> ids[i] < ids[j]
  {
    Ascending(AccountsOf(client.op, client.row))
  }

  function Wanted(client: Client): Option<Resource> {
    if !client.rowRead then Some(Row(client.op.id))
    else if client.taken < |LockOrder(client)| then Some(Account(LockOrder(client)[client.taken]))
    else None
  }

  predicate Holds(client: Client, r: Resource) {
    match r
    case Row(id) => client.rowRead && RowIdOf(client.op) == Some(id)
    case Account(id) => id in client.held
  }

  predicate IsFree(m: Machine, c: nat, r: Resource) {
    forall d :: d in m.clients && d != c ==> !Holds(m.clients[d], r)
  }

  // What is decided before the locks are complete.

  predicate BeginAccepts(l: LedgerState, op: Operation) {
    match op
    case Create(_, t) => Created(t).Ok?
    case Plan(_, t) => Created(t).Ok?
    case Pay(_, workspaceId, source, card, amount, date) =>
      && card in l.accounts && source != card && l.accounts[card].kind == CreditCard
      && source in l.accounts && l.accounts[source].kind != CreditCard
      && Created(PaymentOf(workspaceId, source, card, amount, date)).Ok?
    case _ => true
  }

  predicate RowAccepts(op: Operation, row: Option<Transaction>) {
    match op
    case Update(_, edit) => row.Some? && Created(Edited(row.value, edit)).Ok?
    case Delete(_) => row.Some?
    case Status(_, workspaceId, status, _) => row.Some? && row.value.workspaceId == workspaceId && row.value.status != status
    case _ => true
  }

  // What a commit writes, from what was read under the locks.

  function InsertWith(l: LedgerState, id: Id, t: Transaction, deltas: Result<Deltas, LedgerError>, cause: MovementCause): Step {
    match deltas
    case Err(e) => Err(e)
    case Ok(moves) =>
      if id in l.transactions then Err(DuplicateKey)
      else if !ReferencesExist(l, t) then Err(ForeignKeyViolation)
      else WriteBalanceDeltas(l.(transactions := l.transactions[id := t]), moves, Some(id), cause)
  }

  function UpdateWith(l: LedgerState, id: Id, next: Transaction, deltas: Result<Deltas, LedgerError>): Step {
    match deltas
    case Err(e) => Err(e)
    case Ok(moves) =>
      match WriteBalanceDeltas(l, moves, Some(id), TRANSACTION_UPDATED)
      case Err(e) => Err(e)
      case Ok(written) =>
        if !ReferencesExist(l, next) then Err(ForeignKeyViolation)
        else Ok(written.(transactions := written.transactions[id := next]))
  }

  function WriteWith(stored: LedgerState, id: Id, deltas: Result<Deltas, LedgerError>, cause: MovementCause): Step {
    match deltas
    case Err(e) => Err(e)
    case Ok(moves) => WriteBalanceDeltas(stored, moves, Some(id), cause)
  }

  function CommitWith(l: LedgerState, client: Client): Step
    requires RowIdOf(client.op).Some? ==> client.row.Some?
    requires IsConcurrent(client.op)
  {
    var held := client.held;
    match client.op
    case Create(id, t) => InsertWith(l, id, t, RuleDeltas(ByCreateService, held, t), TRANSACTION_CREATED)
    case Plan(id, t) => InsertWith(l, id, t, RuleDeltas(ByRepository, held, t), TRANSACTION_CREATED)
    case Pay(id, workspaceId, source, card, amount, date) =>
      var t := PaymentOf(workspaceId, source, card, amount, date);
      InsertWith(l, id, t, RuleDeltas(ByPaymentService, held, t), INVOICE_PAID)
    case Update(id, edit) =>
      var current, next := client.row.value, Edited(client.row.value, edit);
      UpdateWith(l, id, next, EffectDeltas(held, RevertedBalanceEffects(current) + BalanceEffects(next), false))
    case Delete(id) =>
      WriteWith(l.(transactions := l.transactions - {id}), id,
                EffectDeltas(held, RevertedBalanceEffects(client.row.value), false), TRANSACTION_DELETED)
    case Status(id, _, status, scheduled) =>
      var updated := client.row.value.(status := status);
      WriteWith(l.(transactions := l.transactions[id := updated]), id,
                EffectDeltas(held, BalanceEffectsFrom(updated, StatusBefore(status)), scheduled), STATUS_CHANGED)
  }

  // The steps.

  datatype MachineStep =
    | Begin(c: nat, op: Operation)
    | LockRow(c: nat)
    | LockAccount(c: nat)
    | Commit(c: nat)
    | Abort(c: nat)
    | Single(op: Operation)

  /** An operation that needs no lock beyond its one statement; an account id is drawn fresh. */
  predicate SingleEnabled(m: Machine, op: Operation) {
    && !IsConcurrent(op)
    && (op.Limit? ==> forall d :: d in m.clients ==> !Holds(m.clients[d], Account(op.id)))
    && (op.Open? ==> forall d :: d in m.clients ==> op.id !in AccountsOf(m.clients[d].op, m.clients[d].row))
  }

  predicate Enabled(m: Machine, step: MachineStep) {
    match step
    case Begin(c, op) => c !in m.clients && IsConcurrent(op)
    case LockRow(c) => c in m.clients && !m.clients[c].rowRead && IsFree(m, c, Row(m.clients[c].op.id))
    case LockAccount(c) =>
      && c in m.clients && m.clients[c].rowRead && m.clients[c].taken < |LockOrder(m.clients[c])|
      && IsFree(m, c, Account(LockOrder(m.clients[c])[m.clients[c].taken]))
    case Commit(c) =>
      && c in m.clients && m.clients[c].rowRead && m.clients[c].taken == |LockOrder(m.clients[c])|
      && IsConcurrent(m.clients[c].op) && (RowIdOf(m.clients[c].op).Some? ==> m.clients[c].row.Some?)
    case Abort(c) => c in m.clients
    case Single(op) => SingleEnabled(m, op)
  }

  function Finished(m: Machine, c: nat, db: LedgerState, op: Operation): Machine {
    Machine(db, m.clients - {c}, m.history + [op])
  }

  function Looked(l: LedgerState, id: Id): Option<Transaction> {
    if id in l.transactions then Some(l.transactions[id]) else None
  }

  function WithAccount(client: Client, db: LedgerState): Client
    requires client.taken < |LockOrder(client)|
  {
    var id := LockOrder(client)[client.taken];
    client.(taken := client.taken + 1,
            held := if id in db.accounts then client.held[id := db.accounts[id]] else client.held)
  }

  function Next(m: Machine, step: MachineStep): Machine
    requires Enabled(m, step)
  {
    match step
    case Begin(c, op) =>
      if !BeginAccepts(m.db, op) then m.(history := m.history + [op])
      else m.(clients := m.clients[c := Client(op, RowIdOf(op).None?, None, 0, map[])])
    case LockRow(c) =>
      var client := m.clients[c];
      var row := Looked(m.db, client.op.id);
      if !RowAccepts(client.op, row) then Finished(m, c, m.db, client.op)
      else m.(clients := m.clients[c := client.(rowRead := true, row := row)])
    case LockAccount(c) => m.(clients := m.clients[c := WithAccount(m.clients[c], m.db)])
    case Commit(c) =>
      (match CommitWith(m.db, m.clients[c])
       case Ok(db) => Finished(m, c, db, m.clients[c].op)
       case Err(_) => Finished(m, c, m.db, m.clients[c].op))
    case Abort(c) => m.(clients := m.clients - {c})
    case Single(op) => m.(db := Perform(m.db, op), history := m.history + [op])
  }

  // What is true in every state.

  function TakenIds(client: Client): set<Id> {
    set i | 0 <= i < client.taken && i < |LockOrder(client)| :: LockOrder(client)[i]
  }

  /** What a client read under its locks is what is stored, whatever else has happened. */
  predicate IsUpToDate(l: LedgerState, client: Client) {
    && IsConcurrent(client.op)
    && BeginAccepts(l, client.op)
    && client.taken <= |LockOrder(client)|
    && client.held == Locked(l.accounts, TakenIds(client))
    && if !client.rowRead then RowIdOf(client.op).Some? && client.taken == 0 && client.row.None?
       else if RowIdOf(client.op).None? then client.row.None?
       else client.row.Some? && client.row == Looked(l, client.op.id) && RowAccepts(client.op, client.row)
  }

  ghost predicate Exclusive(m: Machine) {
    forall c, d, r :: c in m.clients && d in m.clients && c != d && Holds(m.clients[c], r) ==> !Holds(m.clients[d], r)
  }

  ghost predicate Invariant(m: Machine) {
    && (forall c :: c in m.clients ==> IsUpToDate(m.db, m.clients[c]))
    && Exclusive(m)
    && m.db == Run(EMPTY, m.history)
  }

  // No deadlock.

  function Rank(r: Resource): int {
    match r
    case Row(_) => -1
    case Account(id) => id
  }

  predicate WaitsFor(m: Machine, c: nat, d: nat) {
    && c in m.clients && d in m.clients && c != d
    && Wanted(m.clients[c]).Some? && Holds(m.clients[d], Wanted(m.clients[c]).value)
  }

  /** Whatever a client holds ranks below what it still wants. */
  lemma HeldRanksBelowWanted(l: LedgerState, client: Client, r: Resource)
    requires IsUpToDate(l, client) && Holds(client, r) && Wanted(client).Some?
    ensures Rank(r) < Rank(Wanted(client).value)
  {
  }

  lemma WaitingRaisesRank(m: Machine, c: nat, d: nat)
    requires Invariant(m) && WaitsFor(m, c, d) && Wanted(m.clients[d]).Some?
    ensures Rank(Wanted(m.clients[c]).value) < Rank(Wanted(m.clients[d]).value)
  {
    HeldRanksBelowWanted(m.db, m.clients[d], Wanted(m.clients[c]).value);
  }

  predicate IsWaitChain(m: Machine, chain: seq<nat>) {
    forall i :: 0 <= i < |chain| - 1 ==> WaitsFor(m, chain[i], chain[i + 1])
  }

  lemma {:induction false} ChainsRaiseRank(m: Machine, chain: seq<nat>)
    requires Invariant(m) && |chain| >= 2 && IsWaitChain(m, chain)
    requires chain[|chain| - 1] in m.clients && Wanted(m.clients[chain[|chain| - 1]]).Some?
    ensures chain[0] in m.clients && Wanted(m.clients[chain[0]]).Some?
    ensures Rank(Wanted(m.clients[chain[0]]).value) < Rank(Wanted(m.clients[chain[|chain| - 1]]).value)
  {
    hide Invariant, Wanted, Rank;
    assert WaitsFor(m, chain[0], chain[1]);
    if |chain| > 2 {
      var rest := chain[1..];
      forall i | 0 <= i < |rest| - 1
        ensures WaitsFor(m, rest[i], rest[i + 1])
      {
        assert WaitsFor(m, chain[i + 1], chain[i + 1 + 1]);
      }
      ChainsRaiseRank(m, rest);
      assert rest[|rest| - 1] == chain[|chain| - 1];
    }
    WaitingRaisesRank(m, chain[0], chain[1]);
  }

  /** No set of clients ever waits for one another in a circle. */
  lemma NoWaitCycle(m: Machine, cycle: seq<nat>)
    requires Invariant(m) && |cycle| >= 2 && cycle[0] == cycle[|cycle| - 1]
    ensures !IsWaitChain(m, cycle)
  {
    if IsWaitChain(m, cycle) {
      assert WaitsFor(m, cycle[0], cycle[1]);
      ChainsRaiseRank(m, cycle);
    }
  }

  predicate IsWaiting(m: Machine, c: nat) {
    exists d :: d in m.clients && WaitsFor(m, c, d)
  }

  /** Clients that want nothing more come last. */
  predicate Outranks(m: Machine, c: nat, d: nat)
    requires c in m.clients && d in m.clients
  {
    Wanted(m.clients[c]).None?
    || (Wanted(m.clients[d]).Some? && Rank(Wanted(m.clients[d]).value) <= Rank(Wanted(m.clients[c]).value))
  }

  lemma {:induction false} Topmost(m: Machine, among: set<nat>) returns (c: nat)
    requires among != {} && among <= m.clients.Keys
    ensures c in among && forall d :: d in among ==> Outranks(m, c, d)
  {
    hide Wanted, Rank;
    var some :| some in among;
    if among == {some} {
      c := some;
    } else {
      c := Topmost(m, among - {some});
      ghost var best := c;
      if !Outranks(m, c, some) {
        c := some;
      }
      forall d | d in among
        ensures Outranks(m, c, d)
      {
        assert d == some || Outranks(m, best, d);
      }
    }
  }

  /** While any client is running, some client is not waiting, and its next step is enabled. */
  lemma SomeClientCanStep(m: Machine)
    requires Invariant(m) && m.clients != map[]
    ensures exists c :: c in m.clients && !IsWaiting(m, c)
                        && (Enabled(m, LockRow(c)) || Enabled(m, LockAccount(c)) || Enabled(m, Commit(c)))
  {
    var c := Topmost(m, m.clients.Keys);
    if IsWaiting(m, c) {
      var d :| d in m.clients && WaitsFor(m, c, d);
      assert Outranks(m, c, d);
      WaitingRaisesRank(m, c, d);
    }
    NotWaitingIsFree(m, c);
  }

  lemma ReadyToCommit(l: LedgerState, client: Client)
    requires IsUpToDate(l, client) && Wanted(client).None?
    ensures client.rowRead && client.taken == |LockOrder(client)| && IsConcurrent(client.op)
    ensures RowIdOf(client.op).Some? ==> client.row.Some?
  {
  }

  lemma NotWaitingIsFree(m: Machine, c: nat)
    requires Invariant(m) && c in m.clients && !IsWaiting(m, c)
    ensures Enabled(m, LockRow(c)) || Enabled(m, LockAccount(c)) || Enabled(m, Commit(c))
  {
    hide IsUpToDate, LockOrder, Exclusive, Holds, IsConcurrent, RowIdOf;
    var client := m.clients[c];
    if Wanted(client).None? {
      ReadyToCommit(m.db, client);
    } else {
      forall d | d in m.clients && d != c
        ensures !Holds(m.clients[d], Wanted(client).value)
      {
        assert !WaitsFor(m, c, d);
      }
    }
  }
}
