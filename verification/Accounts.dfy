/**
 The four kinds of account and how each one takes an expense or an income.
 Amounts are integer cents.
 */
module Accounts {
  import opened Results

  datatype AccountKind = Checking | Cash | Investment | CreditCard

  datatype EffectKind = Expense | Income

  datatype AccountError =
    | AmountMustBePositive
    | InsufficientBalance
    | CreditLimitExceeded(available: int, requested: int)
    | PaymentExceedsInvoiceBalance
    | LimitMustBePositive
    | NegativeOpeningBalance

  /** A stored account row. */
  datatype AccountRow = AccountRow(kind: AccountKind, balance: int, creditLimit: Option<int>)

  type Outcome = Result<AccountRow, AccountError>

  // What each operation makes of a row.

  function Credited(row: AccountRow, amount: int): Outcome {
    if amount <= 0 then Err(AmountMustBePositive)
    else Ok(row.(balance := row.balance + amount))
  }

  function Debited(row: AccountRow, amount: int): Outcome {
    if amount <= 0 then Err(AmountMustBePositive)
    else if row.kind != Checking && row.balance - amount < 0 then Err(InsufficientBalance)
    else Ok(row.(balance := row.balance - amount))
  }

  function Charged(row: AccountRow, amount: int): Outcome {
    if amount <= 0 then Err(AmountMustBePositive)
    else if row.creditLimit.Some? && amount > row.creditLimit.value - row.balance
    then Err(CreditLimitExceeded(row.creditLimit.value - row.balance, amount))
    else Ok(row.(balance := row.balance + amount))
  }

  function InvoicePaid(row: AccountRow, amount: int): Outcome {
    if amount <= 0 then Err(AmountMustBePositive)
    else if row.balance - amount < 0 then Err(PaymentExceedsInvoiceBalance)
    else Ok(row.(balance := row.balance - amount))
  }

  function ScheduledCharge(row: AccountRow, amount: int): Outcome {
    if amount <= 0 then Err(AmountMustBePositive)
    else Ok(row.(balance := row.balance + amount))
  }

  function ScheduledCredit(row: AccountRow, amount: int): Outcome {
    if amount <= 0 then Err(AmountMustBePositive)
    else Ok(row.(balance := row.balance - amount))
  }

  function WithEffect(row: AccountRow, kind: EffectKind, amount: int): Outcome {
    match (row.kind, kind)
    case (CreditCard, Expense) => Charged(row, amount)
    case (CreditCard, Income) => InvoicePaid(row, amount)
    case (_, Expense) => Debited(row, amount)
    case (_, Income) => Credited(row, amount)
  }

  /** Scheduled settlement bypasses the guards of a card and of no other account. */
  function WithScheduledEffect(row: AccountRow, kind: EffectKind, amount: int): Outcome {
    if row.kind != CreditCard then WithEffect(row, kind, amount)
    else if kind == Expense then ScheduledCharge(row, amount)
    else ScheduledCredit(row, amount)
  }

  function WithAnyEffect(row: AccountRow, kind: EffectKind, amount: int, scheduled: bool): Outcome {
    if scheduled then WithScheduledEffect(row, kind, amount) else WithEffect(row, kind, amount)
  }

  function Inverted(kind: EffectKind): EffectKind {
    if kind == Expense then Income else Expense
  }

  /** A card owes what its expenses add; every other account loses what they take. */
  function Signed(account: AccountKind, kind: EffectKind, amount: int): int {
    if (account == CreditCard) == (kind == Expense) then amount else -amount
  }

  /** Every accepted effect moves the balance by its signed amount and nothing else. */
  lemma AcceptedEffectIsSigned(row: AccountRow, kind: EffectKind, amount: int, scheduled: bool)
    ensures var r := WithAnyEffect(row, kind, amount, scheduled);
            r.Ok? ==> amount > 0 && r.value == row.(balance := row.balance + Signed(row.kind, kind, amount))
  {
  }

  /** What every account row must satisfy at rest, whatever was settled on a card. */
  predicate IsSolvent(row: AccountRow) {
    row.kind == Cash || row.kind == Investment ==> row.balance >= 0
  }

  /** A card within its limit. */
  predicate IsWithinLimit(row: AccountRow) {
    row.kind == CreditCard ==>
      0 <= row.balance && (row.creditLimit.Some? ==> row.balance <= row.creditLimit.value)
  }

  lemma EffectsKeepSolvency(row: AccountRow, kind: EffectKind, amount: int, scheduled: bool)
    requires IsSolvent(row)
    ensures var r := WithAnyEffect(row, kind, amount, scheduled);
            r.Ok? ==> IsSolvent(r.value) && (!scheduled && IsWithinLimit(row) ==> IsWithinLimit(r.value))
  {
  }

  /**
   Undoing an accepted effect at once restores the row, and it is refused exactly when
   the guard of the inverse operation was already broken before the effect: a card that
   owed less than zero, a card over its limit, a cash or investment account below zero.
   */
  lemma UndoingAnEffect(row: AccountRow, kind: EffectKind, amount: int)
    requires WithEffect(row, kind, amount).Ok?
    ensures var undone := WithEffect(WithEffect(row, kind, amount).value, Inverted(kind), amount);
            && (undone.Ok? <==> CanUndo(row, kind))
            && (undone.Ok? ==> undone.value == row)
  {
  }

  predicate CanUndo(row: AccountRow, kind: EffectKind) {
    match (row.kind, kind)
    case (CreditCard, Expense) => row.balance >= 0
    case (CreditCard, Income) => row.creditLimit.Some? ==> row.balance <= row.creditLimit.value
    case (Checking, _) => true
    case (_, Expense) => true
    case (_, Income) => row.balance >= 0
  }

  /** An account loaded from its row: the domain object the repository locks and mutates. */
  class Account {
    const kind: AccountKind
    var balance: int
    var creditLimit: Option<int>

    function Row(): AccountRow
      reads this
    {
      AccountRow(kind, balance, creditLimit)
    }

    constructor Reconstitute(row: AccountRow)
      ensures Row() == row
    {
      kind := row.kind;
      balance := row.balance;
      creditLimit := row.creditLimit;
    }

    method Credit(amount: int) returns (r: Result<(), AccountError>)
      modifies this`balance
      ensures Matches(Credited(old(Row()), amount), r, old(Row()), Row())
    {
      if amount <= 0 {
        return Err(AmountMustBePositive);
      }
      balance := balance + amount;
      return Ok(());
    }

    method Debit(amount: int) returns (r: Result<(), AccountError>)
      modifies this`balance
      ensures Matches(Debited(old(Row()), amount), r, old(Row()), Row())
      ensures r.Ok? <==> amount > 0 && (kind == Checking || amount <= old(balance))
      ensures balance == if r.Ok? then old(balance) - amount else old(balance)
      ensures r.Ok? && kind != Checking ==> balance >= 0
    {
      if amount <= 0 {
        return Err(AmountMustBePositive);
      }
      if kind != Checking && balance - amount < 0 {
        return Err(InsufficientBalance);
      }
      balance := balance - amount;
      return Ok(());
    }

    method RegisterCharge(amount: int) returns (r: Result<(), AccountError>)
      modifies this`balance
      ensures Matches(Charged(old(Row()), amount), r, old(Row()), Row())
      ensures r.Ok? <==> amount > 0 && (creditLimit.Some? ==> old(balance) + amount <= creditLimit.value)
      ensures balance == if r.Ok? then old(balance) + amount else old(balance)
      ensures r.Ok? && creditLimit.Some? ==> balance <= creditLimit.value
    {
      if amount <= 0 {
        return Err(AmountMustBePositive);
      }
      if creditLimit.Some? {
        var available := creditLimit.value - balance;
        if amount > available {
          return Err(CreditLimitExceeded(available, amount));
        }
      }
      balance := balance + amount;
      return Ok(());
    }

    method PayInvoice(amount: int) returns (r: Result<(), AccountError>)
      modifies this`balance
      ensures Matches(InvoicePaid(old(Row()), amount), r, old(Row()), Row())
      ensures r.Ok? <==> 0 < amount <= old(balance)
      ensures balance == if r.Ok? then old(balance) - amount else old(balance)
      ensures r.Ok? ==> balance >= 0
    {
      if amount <= 0 {
        return Err(AmountMustBePositive);
      }
      if balance - amount < 0 {
        return Err(PaymentExceedsInvoiceBalance);
      }
      balance := balance - amount;
      return Ok(());
    }

    method SettleScheduledCharge(amount: int) returns (r: Result<(), AccountError>)
      modifies this`balance
      ensures Matches(ScheduledCharge(old(Row()), amount), r, old(Row()), Row())
      ensures r.Ok? <==> amount > 0
      ensures balance == if r.Ok? then old(balance) + amount else old(balance)
    {
      if amount <= 0 {
        return Err(AmountMustBePositive);
      }
      balance := balance + amount;
      return Ok(());
    }

    method SettleScheduledCredit(amount: int) returns (r: Result<(), AccountError>)
      modifies this`balance
      ensures Matches(ScheduledCredit(old(Row()), amount), r, old(Row()), Row())
      ensures r.Ok? <==> amount > 0
      ensures balance == if r.Ok? then old(balance) - amount else old(balance)
    {
      if amount <= 0 {
        return Err(AmountMustBePositive);
      }
      balance := balance - amount;
      return Ok(());
    }

    method ApplyExpenseEffect(amount: int) returns (r: Result<(), AccountError>)
      modifies this`balance
      ensures Matches(WithEffect(old(Row()), Expense, amount), r, old(Row()), Row())
    {
      if kind == CreditCard {
        r := RegisterCharge(amount);
      } else {
        r := Debit(amount);
      }
    }

    method ApplyIncomeEffect(amount: int) returns (r: Result<(), AccountError>)
      modifies this`balance
      ensures Matches(WithEffect(old(Row()), Income, amount), r, old(Row()), Row())
    {
      if kind == CreditCard {
        r := PayInvoice(amount);
      } else {
        r := Credit(amount);
      }
    }

    method AdjustLimit(newLimit: Option<int>) returns (r: Result<(), AccountError>)
      modifies this`creditLimit
      ensures r.Ok? <==> (newLimit.Some? ==> newLimit.value > 0)
      ensures Row() == if r.Ok? then old(Row()).(creditLimit := newLimit) else old(Row())
    {
      if newLimit.Some? && newLimit.value <= 0 {
        return Err(LimitMustBePositive);
      }
      creditLimit := newLimit;
      return Ok(());
    }
  }

  /** A mutation follows its row function: same verdict, and a refusal changes nothing. */
  ghost predicate Matches(expected: Outcome, r: Result<(), AccountError>, before: AccountRow, after: AccountRow) {
    match expected
    case Ok(row) => r == Ok(()) && after == row
    case Err(e) => r == Err(e) && after == before
  }
}
