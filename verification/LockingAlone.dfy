/** A client that meets no other performs its operation; one that aborts leaves no trace. */
module LockingAlone {
  import opened Results
  import opened Collections
  import opened Accounts
  import opened Transactions
  import opened Ledger
  import opened LedgerRuns
  import opened Locking
  import opened Serializability

  function NextStep(client: Client, c: nat): MachineStep {
    if !client.rowRead then LockRow(c)
    else if client.taken < |LockOrder(client)| then LockAccount(c)
    else Commit(c)
  }

  function RunAlone(m: Machine, c: nat, steps: nat): Machine
    decreases steps
  {
    if steps == 0 || c !in m.clients || !Enabled(m, NextStep(m.clients[c], c)) then m
    else RunAlone(Next(m, NextStep(m.clients[c], c)), c, steps - 1)
  }

  predicate HasFinished(before: Machine, after: Machine, op: Operation) {
    && after.db == Perform(before.db, op) && after.clients == map[] && after.history == before.history + [op]
  }

  lemma NothingLeftToRun(m: Machine, c: nat, steps: nat)
    requires m.clients == map[]
    ensures RunAlone(m, c, steps) == m
  {
  }

  lemma CommittingAlone(m: Machine, c: nat)
    requires Invariant(m) && m.clients.Keys == {c} && Enabled(m, Commit(c))
    ensures HasFinished(m, Next(m, Commit(c)), m.clients[c].op)
  {
    hide CommitWith, Perform, Invariant;
    CommitKeepsInvariant(m, c);
    CommitFinishes(m, c);
  }

  lemma CommitFinishes(m: Machine, c: nat)
    requires Enabled(m, Commit(c)) && m.clients.Keys == {c}
    ensures Next(m, Commit(c)).clients == map[] && Next(m, Commit(c)).history == m.history + [m.clients[c].op]
  {
    hide CommitWith;
    assert m.clients - {c} == map[];
  }

  /** From having its row, a client alone locks its accounts one by one and commits. */
  lemma {:induction false} LockingOnAlone(m: Machine, c: nat, steps: nat)
    requires Invariant(m) && m.clients.Keys == {c} && m.clients[c].rowRead
    requires steps > |LockOrder(m.clients[c])| - m.clients[c].taken
    ensures HasFinished(m, RunAlone(m, c, steps), m.clients[c].op)
    decreases steps
  {
    hide CommitWith, Invariant, Perform;
    var client := m.clients[c];
    AloneIsEnabled(m, c);
    if client.taken < |LockOrder(client)| {
      var next := Next(m, LockAccount(c));
      StepKeepsInvariant(m, LockAccount(c));
      LockedOneMore(m, c);
      LockingOnAlone(next, c, steps - 1);
    } else {
      CommittingAlone(m, c);
      NothingLeftToRun(Next(m, Commit(c)), c, steps - 1);
    }
  }

  lemma AloneIsEnabled(m: Machine, c: nat)
    requires Invariant(m) && m.clients.Keys == {c}
    ensures Enabled(m, NextStep(m.clients[c], c))
  {
  }

  lemma LockedOneMore(m: Machine, c: nat)
    requires Enabled(m, LockAccount(c)) && m.clients.Keys == {c}
    ensures var next, client := Next(m, LockAccount(c)), m.clients[c];
            && next.db == m.db && next.history == m.history && next.clients.Keys == {c}
            && next.clients[c].op == client.op && next.clients[c].rowRead
            && next.clients[c].taken == client.taken + 1 && LockOrder(next.clients[c]) == LockOrder(client)
  {
  }

  /** Beginning alone, an operation is performed, whatever it is and whatever it makes of the ledger. */
  lemma OperationsFinishAlone(m: Machine, c: nat, op: Operation, steps: nat)
    requires Invariant(m) && m.clients == map[] && IsConcurrent(op)
    requires steps >= |AccountsOf(op, StoredRow(m.db, op))| + 2
    ensures Enabled(m, Begin(c, op)) && HasFinished(m, RunAlone(Next(m, Begin(c, op)), c, steps), op)
  {
    hide CommitWith, Perform, Invariant, AccountsOf, BeginAccepts, RowAccepts;
    var begun := Next(m, Begin(c, op));
    StepKeepsInvariant(m, Begin(c, op));
    if !BeginAccepts(m.db, op) {
      RefusedAtOnce(m.db, op);
      NothingLeftToRun(begun, c, steps);
    } else {
      BegunAlone(m, c, op);
      if RowIdOf(op).None? {
        OrderLength(begun.clients[c]);
        LockingOnAlone(begun, c, steps);
      } else {
        RowThenAccounts(begun, c, steps);
      }
    }
  }

  lemma BegunAlone(m: Machine, c: nat, op: Operation)
    requires m.clients == map[] && IsConcurrent(op) && BeginAccepts(m.db, op)
    ensures var begun := Next(m, Begin(c, op));
            && begun.db == m.db && begun.history == m.history && begun.clients.Keys == {c}
            && begun.clients[c] == Client(op, RowIdOf(op).None?, None, 0, map[])
  {
  }

  lemma OrderLength(client: Client)
    ensures |LockOrder(client)| == |AccountsOf(client.op, client.row)|
  {
    AscendingCount(AccountsOf(client.op, client.row));
  }

  lemma {:induction false} AscendingCount(ids: set<Id>)
    ensures |Ascending(ids)| == |ids|
  {
    if ids != {} { AscendingCount(ids - {Least(ids)}); }
  }

  lemma RowThenAccounts(m: Machine, c: nat, steps: nat)
    requires Invariant(m) && m.clients.Keys == {c} && IsConcurrent(m.clients[c].op)
    requires m.clients[c] == Client(m.clients[c].op, false, None, 0, map[]) && RowIdOf(m.clients[c].op).Some?
    requires steps >= |AccountsOf(m.clients[c].op, StoredRow(m.db, m.clients[c].op))| + 2
    ensures HasFinished(m, RunAlone(m, c, steps), m.clients[c].op)
  {
    hide CommitWith, Perform, Invariant, AccountsOf, RowAccepts, LockOrder;
    var client := m.clients[c];
    var next := Next(m, LockRow(c));
    AloneIsEnabled(m, c);
    StepKeepsInvariant(m, LockRow(c));
    assert m.clients - {c} == map[];
    if RowAccepts(client.op, Looked(m.db, client.op.id)) {
      OrderLength(next.clients[c]);
      LockingOnAlone(next, c, steps - 1);
    } else {
      RefusedAtOnce(m.db, client.op);
      NothingLeftToRun(next, c, steps - 1);
    }
  }

  /** An aborted client is gone with its locks, and nothing it did is left; an operation of one statement is performed as it is. */
  lemma AbortsLeaveNoTrace(m: Machine, c: nat, op: Operation)
    ensures Enabled(m, Abort(c)) ==>
              var next := Next(m, Abort(c));
              next.db == m.db && next.history == m.history && next.clients == m.clients - {c}
              && forall r :: IsFree(m, c, r) <==> IsFree(next, c, r)
    ensures Enabled(m, Single(op)) ==>
              var next := Next(m, Single(op));
              next.db == Perform(m.db, op) && next.history == m.history + [op] && next.clients == m.clients
  {
    hide Perform, Holds;
    if Enabled(m, Abort(c)) {
      var next := Next(m, Abort(c));
      forall r
        ensures IsFree(m, c, r) <==> IsFree(next, c, r)
      {
        assert forall d :: d in m.clients && d != c ==> d in next.clients && next.clients[d] == m.clients[d];
      }
    }
  }
}
