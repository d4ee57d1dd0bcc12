/**
 The repository over its tables, and the two services that hand it their own way of
 computing deltas. Every method is one database transaction: what it does to the tables
 is the `Ledger` function of the same name, and a refusal rolls everything back.
 */
module TransactionRepository {
  import opened Results
  import opened Collections
  import opened Accounts
  import opened Transactions
  import L = Ledger

  type LockedAccounts = map<Id, Account>

  ghost predicate Distinct(locked: LockedAccounts) {
    forall a, b :: a in locked && b in locked && a != b ==> locked[a] != locked[b]
  }

  ghost function Rows(locked: LockedAccounts): AccountTable
    reads locked.Values
  {
    map id | id in locked :: locked[id].Row()
  }

  method ApplyEffect(account: Account, effect: BalanceEffect) returns (r: Result<(), AccountError>)
    modifies account`balance
    ensures Matches(WithEffect(old(account.Row()), effect.kind, effect.amount), r, old(account.Row()), account.Row())
  {
    if effect.kind == Expense {
      r := account.ApplyExpenseEffect(effect.amount);
    } else {
      r := account.ApplyIncomeEffect(effect.amount);
    }
  }

  method ApplyScheduledEffect(account: Account, effect: BalanceEffect) returns (r: Result<(), AccountError>)
    modifies account`balance
    ensures Matches(WithScheduledEffect(old(account.Row()), effect.kind, effect.amount), r, old(account.Row()), account.Row())
  {
    if account.kind != CreditCard {
      r := ApplyEffect(account, effect);
    } else if effect.kind == Expense {
      r := account.SettleScheduledCharge(effect.amount);
    } else {
      r := account.SettleScheduledCredit(effect.amount);
    }
  }

  /** One effect on the locked account it names. */
  method ApplyOne(locked: LockedAccounts, effect: BalanceEffect, scheduled: bool) returns (r: Result<(), LedgerError>)
    requires Distinct(locked)
    modifies if effect.accountId in locked then {locked[effect.accountId]} else {}
    ensures match RunEffect(old(Rows(locked)), effect, scheduled)
            case Err(e) => r == Err(e)
            case Ok(after) => r == Ok(()) && Rows(locked) == after
  {
    if effect.accountId !in locked {
      return Err(AccountNotFound);
    }
    var account := locked[effect.accountId];
    ghost var before := Rows(locked);
    var applied: Result<(), AccountError>;
    if scheduled {
      applied := ApplyScheduledEffect(account, effect);
    } else {
      applied := ApplyEffect(account, effect);
    }
    if applied.Err? {
      return Err(AccountRefused(applied.error));
    }
    assert Rows(locked) == before[effect.accountId := account.Row()];
    return Ok(());
  }

  method Measure(locked: LockedAccounts, initialBalances: map<Id, int>) returns (deltas: L.Deltas)
    ensures deltas == map id | id in initialBalances && id in Rows(locked) :: Rows(locked)[id].balance - initialBalances[id]
  {
    deltas := map id | id in initialBalances && id in locked :: locked[id].balance - initialBalances[id];
    forall id | id in deltas
      ensures Rows(locked)[id].balance == locked[id].balance
    {
    }
  }

  /** Applies the effects one by one and measures how far each touched account moved. */
  method ApplyBalanceEffects(locked: LockedAccounts, effects: seq<BalanceEffect>, scheduled: bool)
    returns (r: Result<L.Deltas, LedgerError>)
    requires Distinct(locked)
    modifies locked.Values
    ensures r == L.EffectDeltas(old(Rows(locked)), effects, scheduled)
  {
    hide RunEffects, RunEffect, Touched, Records;
    var initialBalances: map<Id, int> := map[];
    ghost var before := Rows(locked);
    var i := 0;
    assert effects[0..] == effects;
    NothingTouched(effects);
    NothingRecorded(before);
    while i < |effects|
      invariant 0 <= i <= |effects|
      invariant RunEffects(before, effects, scheduled) == RunEffects(Rows(locked), effects[i..], scheduled)
      invariant Records(initialBalances, before, Rows(locked), Touched(effects[..i]))
    {
      var effect := effects[i];
      RunEffectsUnrolls(Rows(locked), effects, i, scheduled);
      TouchedGrows(effects, i);
      RecordsOne(initialBalances, before, Rows(locked), Touched(effects[..i]), effect, scheduled);
      if effect.accountId in locked && effect.accountId !in initialBalances {
        initialBalances := initialBalances[effect.accountId := locked[effect.accountId].balance];
      }
      var applied := ApplyOne(locked, effect, scheduled);
      if applied.Err? {
        return Err(applied.error);
      }
      i := i + 1;
    }
    assert effects[..i] == effects;
    AllEffectsRun(Rows(locked), effects[i..], scheduled);
    RecordsMeasure(initialBalances, before, Rows(locked), Touched(effects));
    var deltas := Measure(locked, initialBalances);
    return Ok(deltas);
  }

  /** The first balance seen of every touched account; the others still hold theirs. */
  ghost predicate Records(initialBalances: map<Id, int>, before: AccountTable, now: AccountTable, touched: set<Id>) {
    && now.Keys == before.Keys
    && initialBalances.Keys == touched * before.Keys
    && (forall id :: id in initialBalances ==> initialBalances[id] == before[id].balance)
    && (forall id :: id in before && id !in initialBalances ==> now[id] == before[id])
  }

  lemma NothingRecorded(rows: AccountTable)
    ensures Records(map[], rows, rows, {})
  {
  }

  lemma RecordsOne(
      initialBalances: map<Id, int>, before: AccountTable, now: AccountTable, touched: set<Id>, effect: BalanceEffect, scheduled: bool)
    requires Records(initialBalances, before, now, touched)
    ensures var id := effect.accountId;
            RunEffect(now, effect, scheduled).Ok? ==>
              && id in now
              && Records(if id in initialBalances then initialBalances else initialBalances[id := now[id].balance],
                         before, RunEffect(now, effect, scheduled).value, touched + {id})
  {
  }

  lemma RecordsMeasure(initialBalances: map<Id, int>, before: AccountTable, now: AccountTable, touched: set<Id>)
    requires Records(initialBalances, before, now, touched)
    ensures (map id | id in initialBalances && id in now :: now[id].balance - initialBalances[id])
         == L.DeltasBetween(before, now, touched)
  {
  }

  lemma RunEffectsUnrolls(rows: AccountTable, effects: seq<BalanceEffect>, i: nat, scheduled: bool)
    requires i < |effects|
    ensures RunEffects(rows, effects[i..], scheduled)
         == match RunEffect(rows, effects[i], scheduled)
            case Err(e) => Err(e)
            case Ok(after) => RunEffects(after, effects[i + 1..], scheduled)
  {
    assert effects[i..][1..] == effects[i + 1..];
  }

  lemma AllEffectsRun(rows: AccountTable, effects: seq<BalanceEffect>, scheduled: bool)
    requires effects == []
    ensures RunEffects(rows, effects, scheduled) == Ok(rows)
  {
  }

  lemma NothingTouched(effects: seq<BalanceEffect>)
    ensures Touched(effects[..0]) == {}
  {
  }

  lemma TouchedGrows(effects: seq<BalanceEffect>, i: nat)
    requires i < |effects|
    ensures Touched(effects[..i + 1]) == Touched(effects[..i]) + {effects[i].accountId}
  {
    assert effects[..i + 1] == effects[..i] + [effects[i]];
  }

  // The create service's own computation.

  method CreateServiceEffects(locked: LockedAccounts, t: Transaction) returns (r: Result<(), LedgerError>)
    requires Distinct(locked)
    requires t.accountId in locked && (t.destinationAccountId.Some? ==> t.destinationAccountId.value in locked)
    modifies locked.Values
    ensures match L.CreateServiceRows(old(Rows(locked)), t)
            case Err(e) => r == Err(e)
            case Ok(after) => r == Ok(()) && Rows(locked) == after
  {
    if t.kind == EXPENSE {
      r := ApplyOne(locked, BalanceEffect(t.accountId, t.amount, Expense), false);
    } else if t.kind == INCOME {
      r := ApplyOne(locked, BalanceEffect(t.accountId, t.amount, Income), false);
    } else if t.destinationAccountId.Some? {
      r := ApplyOne(locked, BalanceEffect(t.accountId, t.amount, Expense), false);
      if r.Err? {
        return;
      }
      r := ApplyOne(locked, BalanceEffect(t.destinationAccountId.value, t.amount, Income), false);
    } else {
      r := Ok(());
    }
  }

  method CreateServiceDeltas(locked: LockedAccounts, t: Transaction) returns (r: Result<L.Deltas, LedgerError>)
    requires Distinct(locked)
    modifies locked.Values
    ensures r == L.CreateServiceDeltas(old(Rows(locked)), t)
  {
    if t.status != COMPLETED {
      return Ok(map[]);
    }
    if t.accountId !in locked {
      return Err(AccountNotFound);
    }
    if t.destinationAccountId.Some? && t.destinationAccountId.value !in locked {
      return Err(AccountNotFound);
    }
    ghost var before := Rows(locked);
    var balancesBefore := BalancesBefore(locked, t);
    var mutation := CreateServiceEffects(locked, t);
    if mutation.Err? {
      return Err(mutation.error);
    }
    CreateServiceRowsKeepKeys(before, t);
    MeasuredFromBefore(balancesBefore, before, Rows(locked), t);
    var deltas := Measure(locked, balancesBefore);
    return Ok(deltas);
  }

  method BalancesBefore(locked: LockedAccounts, t: Transaction) returns (balances: map<Id, int>)
    requires L.IdsOf(t) <= locked.Keys
    ensures balances == map id | id in L.IdsOf(t) && id in Rows(locked) :: Rows(locked)[id].balance
  {
    balances := map[];
    balances := balances[t.accountId := locked[t.accountId].balance];
    if t.destinationAccountId.Some? {
      balances := balances[t.destinationAccountId.value := locked[t.destinationAccountId.value].balance];
    }
  }

  lemma MeasuredFromBefore(balancesBefore: map<Id, int>, before: AccountTable, now: AccountTable, t: Transaction)
    requires now.Keys == before.Keys
    requires balancesBefore == map id | id in L.IdsOf(t) && id in before :: before[id].balance
    ensures (map id | id in balancesBefore && id in now :: now[id].balance - balancesBefore[id])
         == L.DeltasBetween(before, now, L.IdsOf(t))
  {
  }

  lemma CreateServiceRowsKeepKeys(before: AccountTable, t: Transaction)
    requires t.accountId in before && (t.destinationAccountId.Some? ==> t.destinationAccountId.value in before)
    ensures L.CreateServiceRows(before, t).Ok? ==> L.CreateServiceRows(before, t).value.Keys == before.Keys
  {
  }

  // The invoice payment service's own computation.

  method PaymentDeltas(locked: LockedAccounts, t: Transaction) returns (r: Result<L.Deltas, LedgerError>)
    requires Distinct(locked)
    modifies locked.Values
    ensures r == L.PaymentDeltas(old(Rows(locked)), t)
  {
    if t.accountId !in locked {
      return Err(AccountNotFound);
    }
    if t.destinationAccountId.None? || t.destinationAccountId.value !in locked {
      return Err(AccountNotFound);
    }
    var card := t.destinationAccountId.value;
    if locked[card].kind != CreditCard {
      return Err(NotACreditCard);
    }
    ghost var before := Rows(locked);
    var balancesBefore := BalancesBefore(locked, t);
    var paid := Pay(locked, t.accountId, card, t.amount);
    if paid.Err? {
      return Err(paid.error);
    }
    MeasuredFromBefore(balancesBefore, before, Rows(locked), t);
    var deltas := Measure(locked, balancesBefore);
    return Ok(deltas);
  }

  method Pay(locked: LockedAccounts, source: Id, card: Id, amount: int) returns (r: Result<(), LedgerError>)
    requires Distinct(locked) && source in locked && card in locked
    modifies locked[source], locked[card]
    ensures match L.PaymentRows(old(Rows(locked)), source, card, amount)
            case Err(e) => r == Err(e)
            case Ok(after) => r == Ok(()) && Rows(locked) == after
  {
    ghost var before := Rows(locked);
    var debited := locked[source].Debit(amount);
    if debited.Err? {
      return Err(AccountRefused(debited.error));
    }
    ghost var middle := Rows(locked);
    assert middle == before[source := locked[source].Row()];
    var paid := locked[card].PayInvoice(amount);
    if paid.Err? {
      return Err(AccountRefused(paid.error));
    }
    assert Rows(locked) == middle[card := locked[card].Row()];
    return Ok(());
  }

  method DeltasByRule(rule: L.DeltaRule, locked: LockedAccounts, t: Transaction) returns (r: Result<L.Deltas, LedgerError>)
    requires Distinct(locked)
    modifies locked.Values
    ensures r == L.RuleDeltas(rule, old(Rows(locked)), t)
  {
    match rule
    case ByRepository => r := ApplyBalanceEffects(locked, BalanceEffects(t), false);
    case ByCreateService => r := CreateServiceDeltas(locked, t);
    case ByPaymentService => r := PaymentDeltas(locked, t);
  }

  /** The whole step, or an error and nothing. */
  ghost predicate Commits(expected: L.Step, failure: Option<LedgerError>, before: L.LedgerState, after: L.LedgerState) {
    match expected
    case Ok(next) => failure == None && after == next
    case Err(e) => failure == Some(e) && after == before
  }

  /** The tables, and the database transactions over them. */
  class Repository {
    var accounts: AccountTable
    var transactions: map<Id, Transaction>
    var movements: seq<L.Movement>

    function State(): L.LedgerState
      reads this
    {
      L.LedgerState(accounts, transactions, movements)
    }

    constructor ()
      ensures State() == L.LedgerState(map[], map[], [])
    {
      accounts, transactions, movements := map[], map[], [];
    }

    /** Loads every existing account of the set, in id order, as a fresh domain object. */
    method LockAccounts(ids: set<Id>) returns (locked: LockedAccounts)
      ensures Distinct(locked) && fresh(locked.Values)
      ensures Rows(locked) == L.Locked(accounts, ids)
    {
      locked := map[];
      var ordered := Ascending(ids);
      for i := 0 to |ordered|
        invariant Distinct(locked) && forall id :: id in locked ==> fresh(locked[id])
        invariant forall j :: 0 <= j < i && ordered[j] in accounts ==> ordered[j] in locked
        invariant forall id :: id in locked ==> id in ids && id in accounts && locked[id].Row() == accounts[id]
      {
        var id := ordered[i];
        if id in accounts {
          var account := new Account.Reconstitute(accounts[id]);
          locked := locked[id := account];
        }
      }
      assert Rows(locked).Keys == L.Locked(accounts, ids).Keys;
    }

    method MoveBalance(id: Id, delta: int, transactionId: Option<Id>, cause: L.MovementCause)
      requires id in accounts
      modifies this`accounts, this`movements
      ensures State() == L.Moved(old(State()), id, delta, transactionId, cause)
    {
      var balance := accounts[id].balance + delta;
      accounts := accounts[id := accounts[id].(balance := balance)];
      movements := movements + [L.Movement(id, transactionId, cause, delta, balance)];
    }

    /** Adds each non-zero delta to its account in id order and appends a movement for it. */
    method WriteBalanceDeltas(deltas: L.Deltas, transactionId: Option<Id>, cause: L.MovementCause)
      returns (r: Result<(), LedgerError>)
      modifies this`accounts, this`movements
      ensures match L.WriteBalanceDeltas(old(State()), deltas, transactionId, cause)
              case Err(e) => r == Err(e)
              case Ok(next) => r == Ok(()) && State() == next
    {
      var ordered := Ascending(L.NonZero(deltas));
      var i := 0;
      hide L.WriteEach, L.Moved;
      assert ordered[0..] == ordered;
      while i < |ordered|
        invariant 0 <= i <= |ordered|
        invariant State().transactions == old(State()).transactions
        invariant forall id :: id in ordered ==> id in deltas
        invariant L.WriteEach(State(), ordered[i..], deltas, transactionId, cause)
               == L.WriteBalanceDeltas(old(State()), deltas, transactionId, cause)
      {
        var id := ordered[i];
        L.WriteEachUnrolls(State(), ordered, i, deltas, transactionId, cause);
        if id !in accounts {
          return Err(AccountNotFound);
        }
        MoveBalance(id, deltas[id], transactionId, cause);
        i := i + 1;
      }
      L.WriteEachEnds(State(), ordered[i..], deltas, transactionId, cause);
      return Ok(());
    }

    // Each operation below locks the accounts it names before touching a balance.

    method CreateWithBalanceUpdate(id: Id, t: Transaction, rule: L.DeltaRule, cause: L.MovementCause)
      returns (failure: Option<LedgerError>)
      modifies this
      ensures Commits(L.CreateTransaction(old(State()), id, t, rule, cause), failure, old(State()), State())
    {
      var saved := State();
      var locked := LockAccounts(L.IdsOf(t));
      var applied := DeltasByRule(rule, locked, t);
      if applied.Err? {
        return Some(applied.error);
      }
      if id in transactions {
        return Some(DuplicateKey);
      }
      if !(L.IdsOf(t) <= accounts.Keys) {
        return Some(ForeignKeyViolation);
      }
      transactions := transactions[id := t];
      var written := WriteBalanceDeltas(applied.value, Some(id), cause);
      if written.Err? {
        Rollback(saved);
        return Some(written.error);
      }
      return None;
    }

    method Rollback(saved: L.LedgerState)
      modifies this
      ensures State() == saved
    {
      accounts, transactions, movements := saved.accounts, saved.transactions, saved.movements;
    }

    method UpdateWithBalanceEffect(id: Id, edit: L.TransactionEdit) returns (failure: Option<LedgerError>)
      modifies this
      ensures Commits(L.UpdateTransaction(old(State()), id, edit), failure, old(State()), State())
      ensures failure.None? ==>
                && id in old(transactions) && id in transactions
                && (var was, row := old(transactions)[id], transactions[id];
                    && row.amount == edit.amount && row.accountId == edit.accountId
                    && row.destinationAccountId == edit.destinationAccountId && row.date == edit.date
                    && row.kind == edit.kind && row.status == edit.status
                    && row.workspaceId == was.workspaceId && row.recurringId == was.recurringId)
                && forall k :: k in old(transactions) && k != id ==> k in transactions && transactions[k] == old(transactions)[k]
    {
      var saved := State();
      if id !in transactions {
        return Some(TransactionNotFound);
      }
      var current := transactions[id];
      var mutated := Created(L.Edited(current, edit));
      if mutated.Err? {
        return Some(TransactionRefused(mutated.error));
      }
      var next := mutated.value;
      var locked := LockAccounts(L.IdsOf(current) + L.IdsOf(next));
      var applied := ApplyBalanceEffects(locked, RevertedBalanceEffects(current) + BalanceEffects(next), false);
      if applied.Err? {
        return Some(applied.error);
      }
      var written := WriteBalanceDeltas(applied.value, Some(id), L.TRANSACTION_UPDATED);
      if written.Err? {
        Rollback(saved);
        return Some(written.error);
      }
      L.WriteKeepsTables(saved, applied.value, Some(id), L.TRANSACTION_UPDATED);
      if !(L.IdsOf(next) <= accounts.Keys) {
        Rollback(saved);
        return Some(ForeignKeyViolation);
      }
      transactions := transactions[id := next];
      return None;
    }

    method DeleteWithBalanceEffect(id: Id) returns (failure: Option<LedgerError>)
      modifies this
      ensures Commits(L.DeleteTransaction(old(State()), id), failure, old(State()), State())
    {
      var saved := State();
      if id !in transactions {
        return Some(TransactionNotFound);
      }
      var current := transactions[id];
      var locked := LockAccounts(L.IdsOf(current));
      var applied := ApplyBalanceEffects(locked, RevertedBalanceEffects(current), false);
      if applied.Err? {
        return Some(applied.error);
      }
      transactions := transactions - {id};
      var written := WriteBalanceDeltas(applied.value, Some(id), L.TRANSACTION_DELETED);
      if written.Err? {
        Rollback(saved);
        return Some(written.error);
      }
      return None;
    }

    method UpdateStatusWithBalanceEffect(id: Id, workspaceId: Id, status: TransactionStatus, scheduled: bool)
      returns (failure: Option<LedgerError>)
      modifies this
      ensures Commits(L.SetStatus(old(State()), id, workspaceId, status, scheduled), failure, old(State()), State())
    {
      var saved := State();
      if id !in transactions || transactions[id].workspaceId != workspaceId || transactions[id].status == status {
        var conflict := StatusTransitionConflict(id, workspaceId, status);
        return Some(conflict);
      }
      var updated := transactions[id].(status := status);
      transactions := transactions[id := updated];
      var locked := LockAccounts(L.IdsOf(updated));
      var applied := ApplyBalanceEffects(locked, BalanceEffectsFrom(updated, L.StatusBefore(status)), scheduled);
      if applied.Err? {
        Rollback(saved);
        return Some(applied.error);
      }
      var written := WriteBalanceDeltas(applied.value, Some(id), L.STATUS_CHANGED);
      if written.Err? {
        Rollback(saved);
        return Some(written.error);
      }
      return None;
    }

    /** Why the conditional status update matched no row. */
    method StatusTransitionConflict(id: Id, workspaceId: Id, status: TransactionStatus) returns (e: LedgerError)
      requires id !in transactions || transactions[id].workspaceId != workspaceId || transactions[id].status == status
      ensures e == TransactionNotFound <==> id !in transactions || transactions[id].workspaceId != workspaceId
      ensures e == TransactionNotFound
              || e == (if status == COMPLETED then TransactionAlreadyCompleted else TransactionAlreadyPending)
    {
      if id !in transactions || transactions[id].workspaceId != workspaceId {
        return TransactionNotFound;
      }
      return if status == COMPLETED then TransactionAlreadyCompleted else TransactionAlreadyPending;
    }

    method CreateWithOpeningMovement(id: Id, kind: AccountKind, balance: int, creditLimit: Option<int>)
      returns (failure: Option<LedgerError>)
      modifies this
      ensures Commits(L.OpenAccount(old(State()), id, kind, balance, creditLimit), failure, old(State()), State())
    {
      var built := L.Opening(kind, balance, creditLimit);
      if built.Err? {
        return Some(AccountRefused(built.error));
      }
      if id in accounts {
        return Some(DuplicateKey);
      }
      accounts := accounts[id := built.value];
      movements := movements + [L.Movement(id, None, L.OPENING, built.value.balance, built.value.balance)];
      return None;
    }

    /** Editing loads the account, adjusts it, and writes back everything but the balance. */
    method UpdateAccount(id: Id, newLimit: Option<int>) returns (failure: Option<LedgerError>)
      modifies this
      ensures Commits(L.AdjustLimit(old(State()), id, newLimit), failure, old(State()), State())
    {
      if id !in accounts {
        return Some(AccountNotFound);
      }
      var account := new Account.Reconstitute(accounts[id]);
      if account.kind == CreditCard {
        var adjusted := account.AdjustLimit(newLimit);
        if adjusted.Err? {
          return Some(AccountRefused(LimitMustBePositive));
        }
        accounts := accounts[id := accounts[id].(creditLimit := account.creditLimit)];
      }
      return None;
    }
  }
}
