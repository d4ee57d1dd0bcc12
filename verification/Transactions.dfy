/** A transaction, what makes one acceptable, and the effects a completed one has on accounts. */
module Transactions {
  import opened Results
  import opened Collections
  import opened CivilCalendar
  import opened Accounts

  datatype TransactionType = INCOME | EXPENSE | TRANSFER

  datatype TransactionStatus = PENDING | COMPLETED

  datatype Transaction = Transaction(
    workspaceId: Id,
    accountId: Id,
    destinationAccountId: Option<Id>,
    amount: int,
    date: Date,
    kind: TransactionType,
    status: TransactionStatus,
    recurringId: Option<Id>
  )

  datatype TransactionError =
    | InvalidAmount
    | DestinationRequired
    | SourceAndDestinationMustDiffer

  /** `Transaction.create`: amount first, then the shape of a transfer. */
  function Created(t: Transaction): (r: Result<Transaction, TransactionError>)
    ensures r.Ok? <==> IsWellShaped(t)
    ensures r.Ok? ==> r.value == t
    ensures t.amount <= 0 ==> r == Err(InvalidAmount)
    ensures t.amount > 0 && t.kind == TRANSFER && t.destinationAccountId.None? ==> r == Err(DestinationRequired)
    ensures t.amount > 0 && t.kind == TRANSFER && t.destinationAccountId == Some(t.accountId) ==> r == Err(SourceAndDestinationMustDiffer)
  {
    if t.amount <= 0 then Err(InvalidAmount)
    else if t.kind == TRANSFER && t.destinationAccountId.None? then Err(DestinationRequired)
    else if t.kind == TRANSFER && t.destinationAccountId.value == t.accountId then Err(SourceAndDestinationMustDiffer)
    else Ok(t)
  }

  predicate IsWellShaped(t: Transaction) {
    t.amount > 0 && (t.kind == TRANSFER ==> t.destinationAccountId.Some? && t.destinationAccountId.value != t.accountId)
  }

  datatype BalanceEffect = BalanceEffect(accountId: Id, amount: int, kind: EffectKind)

  function BuildEffect(t: Transaction, accountId: Id, kind: EffectKind, reverted: bool): BalanceEffect {
    BalanceEffect(accountId, t.amount, if reverted then Inverted(kind) else kind)
  }

  function ResolveEffects(t: Transaction, reverted: bool): seq<BalanceEffect> {
    if t.status != COMPLETED then []
    else
      var sourceKind := if t.kind == INCOME then Income else Expense;
      var source := [BuildEffect(t, t.accountId, sourceKind, reverted)];
      if t.kind == TRANSFER && t.destinationAccountId.Some?
      then source + [BuildEffect(t, t.destinationAccountId.value, Income, reverted)]
      else source
  }

  function BalanceEffects(t: Transaction): seq<BalanceEffect> {
    ResolveEffects(t, false)
  }

  function RevertedBalanceEffects(t: Transaction): seq<BalanceEffect> {
    ResolveEffects(t, true)
  }

  function BalanceEffectsFrom(t: Transaction, previous: TransactionStatus): seq<BalanceEffect> {
    RevertedBalanceEffects(t.(status := previous)) + BalanceEffects(t)
  }

  // The signed view: what a list of effects adds to one account.

  function SignedSum(effects: seq<BalanceEffect>, id: Id, account: AccountKind): int {
    if effects == [] then 0
    else
      (if effects[0].accountId == id then Signed(account, effects[0].kind, effects[0].amount) else 0)
      + SignedSum(effects[1..], id, account)
  }

  /** What a transaction contributes to the balance of one account. */
  function Contribution(t: Transaction, id: Id, account: AccountKind): int {
    if t.status != COMPLETED then 0
    else
      (if t.accountId == id then Signed(account, if t.kind == INCOME then Income else Expense, t.amount) else 0)
      + (if t.kind == TRANSFER && t.destinationAccountId == Some(id) then Signed(account, Income, t.amount) else 0)
  }

  lemma {:induction false} SignedSumAppend(a: seq<BalanceEffect>, b: seq<BalanceEffect>, id: Id, account: AccountKind)
    ensures SignedSum(a + b, id, account) == SignedSum(a, id, account) + SignedSum(b, id, account)
  {
    if a == [] {
      assert a + b == b;
    } else {
      SignedSumAppend(a[1..], b, id, account);
      assert (a + b)[1..] == a[1..] + b;
    }
  }

  lemma SignedSumOne(effect: BalanceEffect, id: Id, account: AccountKind)
    ensures SignedSum([effect], id, account)
         == if effect.accountId == id then Signed(account, effect.kind, effect.amount) else 0
  {
    assert [effect][1..] == [];
  }

  lemma EffectsContribute(t: Transaction, reverted: bool, id: Id, account: AccountKind)
    ensures SignedSum(ResolveEffects(t, reverted), id, account)
         == if reverted then -Contribution(t, id, account) else Contribution(t, id, account)
  {
    var effects := ResolveEffects(t, reverted);
    if effects != [] {
      SignedSumOne(effects[0], id, account);
      if |effects| == 1 {
        assert effects == [effects[0]];
      } else {
        assert effects == [effects[0]] + [effects[1]];
        SignedSumOne(effects[1], id, account);
        SignedSumAppend([effects[0]], [effects[1]], id, account);
      }
    }
  }

  /** A status change moves each account by the difference of the contributions. */
  lemma StatusEffectsContribute(t: Transaction, previous: TransactionStatus, id: Id, account: AccountKind)
    ensures SignedSum(BalanceEffectsFrom(t, previous), id, account)
         == Contribution(t, id, account) - Contribution(t.(status := previous), id, account)
  {
    EffectsContribute(t.(status := previous), true, id, account);
    EffectsContribute(t, false, id, account);
    SignedSumAppend(RevertedBalanceEffects(t.(status := previous)), BalanceEffects(t), id, account);
  }

  function Touched(effects: seq<BalanceEffect>): (ids: set<Id>) {
    set e | e in effects :: e.accountId
  }

  // Running effects over account rows: all of them, or none.

  datatype LedgerError =
    | AccountNotFound
    | AccountRefused(reason: AccountError)
    | TransactionRefused(cause: TransactionError)
    | TransactionNotFound
    | TransactionAlreadyCompleted
    | TransactionAlreadyPending
    | NotACreditCard
    | SourceIsACreditCard
    | DuplicateKey
    | ForeignKeyViolation

  type AccountTable = map<Id, AccountRow>

  function RunEffect(accounts: AccountTable, e: BalanceEffect, scheduled: bool): Result<AccountTable, LedgerError> {
    if e.accountId !in accounts then Err(AccountNotFound)
    else
      match WithAnyEffect(accounts[e.accountId], e.kind, e.amount, scheduled)
      case Err(reason) => Err(AccountRefused(reason))
      case Ok(row) => Ok(accounts[e.accountId := row])
  }

  function RunEffects(accounts: AccountTable, effects: seq<BalanceEffect>, scheduled: bool): Result<AccountTable, LedgerError> {
    if effects == [] then Ok(accounts)
    else
      match RunEffect(accounts, effects[0], scheduled)
      case Err(reason) => Err(reason)
      case Ok(after) => RunEffects(after, effects[1..], scheduled)
  }

  /** Accepted effects move every balance by its signed sum and change nothing else. */
  lemma {:induction false} RunEffectsMoves(accounts: AccountTable, effects: seq<BalanceEffect>, scheduled: bool, id: Id)
    requires RunEffects(accounts, effects, scheduled).Ok? && id in accounts
    ensures var after := RunEffects(accounts, effects, scheduled).value;
            && after.Keys == accounts.Keys
            && after[id] == accounts[id].(balance := accounts[id].balance + SignedSum(effects, id, accounts[id].kind))
    decreases |effects|
  {
    if effects != [] {
      var e := effects[0];
      var row := WithAnyEffect(accounts[e.accountId], e.kind, e.amount, scheduled).value;
      AcceptedEffectIsSigned(accounts[e.accountId], e.kind, e.amount, scheduled);
      RunEffectsMoves(accounts[e.accountId := row], effects[1..], scheduled, id);
    }
  }

  /** Solvency, and the card limit when nothing is settled on schedule, survive any accepted effects. */
  lemma {:induction false} RunEffectsKeepSolvency(accounts: AccountTable, effects: seq<BalanceEffect>, scheduled: bool, id: Id)
    requires RunEffects(accounts, effects, scheduled).Ok? && id in accounts && IsSolvent(accounts[id])
    ensures var after := RunEffects(accounts, effects, scheduled).value;
            && id in after && IsSolvent(after[id])
            && (!scheduled && IsWithinLimit(accounts[id]) ==> IsWithinLimit(after[id]))
    decreases |effects|
  {
    if effects != [] {
      var e := effects[0];
      var row := WithAnyEffect(accounts[e.accountId], e.kind, e.amount, scheduled).value;
      if e.accountId == id {
        EffectsKeepSolvency(accounts[id], e.kind, e.amount, scheduled);
      }
      RunEffectsKeepSolvency(accounts[e.accountId := row], effects[1..], scheduled, id);
    }
  }

  /** Running two lists is running the first and then the second. */
  lemma {:induction false} RunEffectsAppend(accounts: AccountTable, a: seq<BalanceEffect>, b: seq<BalanceEffect>, scheduled: bool)
    ensures RunEffects(accounts, a + b, scheduled)
         == match RunEffects(accounts, a, scheduled)
            case Err(e) => Err(e)
            case Ok(middle) => RunEffects(middle, b, scheduled)
    decreases |a|
  {
    if a == [] {
      assert a + b == b;
    } else {
      assert (a + b)[1..] == a[1..] + b;
      var e := a[0];
      if e.accountId in accounts {
        match WithAnyEffect(accounts[e.accountId], e.kind, e.amount, scheduled)
        case Err(_) =>
        case Ok(row) => RunEffectsAppend(accounts[e.accountId := row], a[1..], b, scheduled);
      }
    }
  }
}
