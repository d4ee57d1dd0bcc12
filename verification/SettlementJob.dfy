/** The job that completes due card transactions on schedule. */
module SettlementJob {
  import opened Results
  import opened Collections
  import opened Accounts
  import opened Transactions
  import opened Ledger
  import opened LedgerRuns
  import opened EffectAgreement
  import opened LedgerUndo
  import T = TransactionRepository

  datatype ItemResult = Settled | Skipped | Failed

  datatype Outcome = NothingDue | Success | PartialFailure | TotalFailure

  datatype Summary = Summary(
    outcome: Outcome, settled: nat, skipped: nat, failed: nat, processed: nat, remaining: int)

  function Classify(failed: nat, processed: nat): Outcome {
    if processed == 0 then NothingDue
    else if failed == 0 then Success
    else if failed == processed then TotalFailure
    else PartialFailure
  }

  datatype Due = Due(id: Id, workspaceId: Id)

  function SettleOp(due: Due): Operation {
    Status(due.id, due.workspaceId, COMPLETED, true)
  }

  function SettleOps(due: seq<Due>): seq<Operation> {
    seq(|due|, i requires 0 <= i < |due| => SettleOp(due[i]))
  }

  lemma {:induction false} RunAppend(l: LedgerState, a: seq<Operation>, b: seq<Operation>)
    ensures Run(l, a + b) == Run(Run(l, a), b)
    decreases |a|
  {
    if a == [] {
      assert a + b == b;
    } else {
      assert (a + b)[1..] == a[1..] + b;
      RunAppend(Perform(l, a[0]), a[1..], b);
    }
  }

  /** What becomes of one due row: settled, already completed by someone else, or refused. */
  function VerdictOf(l: LedgerState, due: Due): ItemResult {
    match Attempt(l, SettleOp(due))
    case Ok(_) => Settled
    case Err(reason) => if reason == TransactionAlreadyCompleted then Skipped else Failed
  }

  /** The verdicts of a run, each on the ledger the ones before it left. */
  function Verdicts(l: LedgerState, due: seq<Due>): (r: seq<ItemResult>)
    ensures |r| == |due|
  {
    if due == [] then []
    else
      var n := |due| - 1;
      Verdicts(l, due[..n]) + [VerdictOf(Run(l, SettleOps(due[..n])), due[n])]
  }

  lemma VerdictsUnroll(l: LedgerState, due: seq<Due>, i: nat)
    requires i < |due|
    ensures Verdicts(l, due[..i + 1]) == Verdicts(l, due[..i]) + [VerdictOf(Run(l, SettleOps(due[..i])), due[i])]
    ensures Run(l, SettleOps(due[..i + 1])) == Perform(Run(l, SettleOps(due[..i])), SettleOp(due[i]))
  {
    hide Run, Perform, VerdictOf;
    assert due[..i + 1][..i] == due[..i];
    RunAppend(l, SettleOps(due[..i]), [SettleOp(due[i])]);
    assert SettleOps(due[..i + 1]) == SettleOps(due[..i]) + [SettleOp(due[i])];
    RunOneOperation(Run(l, SettleOps(due[..i])), SettleOp(due[i]));
  }

  lemma NothingSettled(l: LedgerState, due: seq<Due>)
    ensures Verdicts(l, due[..0]) == [] && Run(l, SettleOps(due[..0])) == l
  {
  }

  method Settle(repository: T.Repository, due: Due) returns (r: ItemResult)
    modifies repository
    ensures repository.State() == Perform(old(repository.State()), SettleOp(due))
    ensures r == VerdictOf(old(repository.State()), due)
  {
    var failure := repository.UpdateStatusWithBalanceEffect(due.id, due.workspaceId, COMPLETED, true);
    if failure.None? {
      return Settled;
    }
    return if failure.value == TransactionAlreadyCompleted then Skipped else Failed;
  }

  /**
   Settles in order until the time budget is spent, always trying at least one. The ledger
   it leaves is the run of the processed settlements, and its counts are those of their verdicts.
   */
  method Execute(repository: T.Repository, due: seq<Due>, totalDue: nat, overBudget: nat -> bool) returns (s: Summary)
    modifies repository
    ensures s.processed <= |due| && (due != [] ==> s.processed > 0)
    ensures repository.State() == Run(old(repository.State()), SettleOps(due[..s.processed]))
    ensures var verdicts := multiset(Verdicts(old(repository.State()), due[..s.processed]));
            s.settled == verdicts[Settled] && s.skipped == verdicts[Skipped] && s.failed == verdicts[Failed]
    ensures s.settled + s.skipped + s.failed == s.processed
    ensures s.remaining == totalDue - s.processed
    ensures s.processed < |due| ==> overBudget(s.processed)
    ensures s.outcome == NothingDue <==> s.processed == 0
    ensures s.outcome == Success <==> s.processed > 0 && s.failed == 0
    ensures s.outcome == TotalFailure <==> s.processed > 0 && s.settled == 0 && s.skipped == 0
    ensures s.outcome == PartialFailure <==> s.failed > 0 && s.settled + s.skipped > 0
  {
    hide Run, Perform, VerdictOf, Verdicts, SettleOps;
    ghost var start := repository.State();
    var settled, skipped, failed, processed := 0, 0, 0, 0;
    NothingSettled(start, due);
    while processed < |due|
      invariant 0 <= processed <= |due|
      invariant settled + skipped + failed == processed
      invariant repository.State() == Run(start, SettleOps(due[..processed]))
      invariant settled == multiset(Verdicts(start, due[..processed]))[Settled]
      invariant skipped == multiset(Verdicts(start, due[..processed]))[Skipped]
      invariant failed == multiset(Verdicts(start, due[..processed]))[Failed]
    {
      if processed > 0 && overBudget(processed) {
        break;
      }
      VerdictsUnroll(start, due, processed);
      var result := Settle(repository, due[processed]);
      processed := processed + 1;
      match result
      case Settled => settled := settled + 1;
      case Skipped => skipped := skipped + 1;
      case Failed => failed := failed + 1;
    }
    s := Summary(Classify(failed, processed), settled, skipped, failed, processed, totalDue - processed);
  }

  lemma RunOneOperation(l: LedgerState, op: Operation)
    ensures Run(l, [op]) == Perform(l, op)
  {
    assert [op][1..] == [];
  }

  /** What the due query selects: a pending charge or credit on a card. */
  predicate IsDueOnCard(l: LedgerState, due: Due) {
    && due.id in l.transactions
    && var t := l.transactions[due.id];
       t.workspaceId == due.workspaceId && t.status == PENDING && t.kind != TRANSFER && IsWellShaped(t)
       && IdsOf(t) <= l.accounts.Keys && l.accounts[t.accountId].kind == CreditCard
  }

  /** What settling puts on the card: a charge adds to what it owes, a credit takes from it. */
  function SettledRow(row: AccountRow, t: Transaction): AccountRow {
    row.(balance := if t.kind == INCOME then row.balance - t.amount else row.balance + t.amount)
  }

  /** A due card transaction is never refused: no limit and no debt stands in its way. */
  lemma DueTransactionsSettle(l: LedgerState, due: Due)
    requires IsDueOnCard(l, due)
    ensures Attempt(l, SettleOp(due)).Ok?
    ensures Attempt(l, SettleOp(due)).value.transactions == l.transactions[due.id := l.transactions[due.id].(status := COMPLETED)]
    ensures var t, next := l.transactions[due.id], Attempt(l, SettleOp(due)).value;
            t.accountId in next.accounts && next.accounts[t.accountId] == SettledRow(l.accounts[t.accountId], t)
  {
    hide WriteBalanceDeltas, DeltaSum, OpeningSum, OpeningCount, RecordsPrefixSums;
    var t := l.transactions[due.id];
    var updated := t.(status := COMPLETED);
    assert updated.(status := PENDING) == t;
    var effect := BuildEffect(updated, t.accountId, if t.kind == INCOME then Income else Expense, false);
    assert BalanceEffectsFrom(updated, PENDING) == [effect];
    var locked := Locked(l.accounts, IdsOf(updated));
    RunOne(locked, effect, true);
    assert RunEffects(locked, [effect], true).Ok?;
    var stored := l.(transactions := l.transactions[due.id := updated]);
    var deltas := EffectDeltas(locked, [effect], true).value;
    WriteSucceeds(stored, deltas, Some(due.id), STATUS_CHANGED);
    WriteKeepsTables(stored, deltas, Some(due.id), STATUS_CHANGED);
    WriteMovesBy(stored, deltas, Some(due.id), STATUS_CHANGED, t.accountId);
    DeltaOfOne(l, updated, effect);
  }

  lemma DeltaOfOne(l: LedgerState, t: Transaction, effect: BalanceEffect)
    requires effect.accountId in IdsOf(t) && effect.accountId in l.accounts
    requires EffectDeltas(Locked(l.accounts, IdsOf(t)), [effect], true).Ok?
    ensures DeltaOf(EffectDeltas(Locked(l.accounts, IdsOf(t)), [effect], true).value, effect.accountId)
         == Signed(l.accounts[effect.accountId].kind, effect.kind, effect.amount)
  {
    hide EffectDeltas, IdsOf;
    EffectDeltaIsSigned(l.accounts, IdsOf(t), [effect], true, effect.accountId);
    SignedSumOne(effect, effect.accountId, l.accounts[effect.accountId].kind);
  }

  /**
   Settling on schedule can take a card below zero: a credit of 100 due on a card that owes
   nothing. From there a charge is accepted, and can then not be deleted.
   */
  lemma AnOverpaidCardCannotUndo(credit: Transaction, charge: Transaction)
    requires credit == Transaction(0, 0, None, 100, 0, INCOME, PENDING, Some(0))
    requires charge == Transaction(0, 0, None, 50, 0, EXPENSE, COMPLETED, None)
    ensures var l := Run(EMPTY, [Open(0, CreditCard, 0, None), Generate(0, credit), SettleOp(Due(0, 0))]);
            && 0 in l.accounts && l.accounts[0] == AccountRow(CreditCard, -100, None)
            && Attempt(l, Create(1, charge)).Ok?
            && Attempt(Attempt(l, Create(1, charge)).value, Delete(1)).Err?
  {
    hide SetStatus, CreateChecked, CreateTransaction, DeleteTransaction;
    var start := Perform(EMPTY, Open(0, CreditCard, 0, None));
    var generated := Perform(start, Generate(0, credit));
    RunOfThree(EMPTY, Open(0, CreditCard, 0, None), Generate(0, credit), SettleOp(Due(0, 0)));
    assert generated.transactions == map[0 := credit] && generated.accounts == map[0 := AccountRow(CreditCard, 0, None)];
    DueTransactionsSettle(generated, Due(0, 0));
    ChargedOnOverpaidCard(Perform(generated, SettleOp(Due(0, 0))), charge);
  }

  lemma ChargedOnOverpaidCard(l: LedgerState, charge: Transaction)
    requires charge == Transaction(0, 0, None, 50, 0, EXPENSE, COMPLETED, None)
    requires 0 in l.accounts && l.accounts[0] == AccountRow(CreditCard, -100, None) && 1 !in l.transactions
    ensures Attempt(l, Create(1, charge)).Ok?
    ensures Attempt(Attempt(l, Create(1, charge)).value, Delete(1)).Err?
  {
    hide CreateChecked, CreateTransaction, DeleteTransaction;
    CreationSucceeds(l, 1, charge, ByCreateService, TRANSACTION_CREATED);
    UndoingACreation(l, 1, charge, ByCreateService, TRANSACTION_CREATED);
  }
}
