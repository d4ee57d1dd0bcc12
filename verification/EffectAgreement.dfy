/**
 Three pieces of code turn a new transaction into balance deltas: the create service,
 the invoice payment service and the repository. Here is when they agree.
 */
module EffectAgreement {
  import opened Results
  import opened Collections
  import opened Accounts
  import opened Transactions
  import opened Ledger

  /** Same verdict, same error, and the same accounts moved by the same amounts. */
  predicate SameOutcome(a: Result<Deltas, LedgerError>, b: Result<Deltas, LedgerError>) {
    match (a, b)
    case (Ok(x), Ok(y)) => SameMoves(x, y)
    case (Err(x), Err(y)) => x == y
    case _ => false
  }

  predicate SameMoves(a: Deltas, b: Deltas) {
    NonZero(a) == NonZero(b) && forall id :: id in NonZero(a) ==> a[id] == b[id]
  }

  lemma {:induction false} WriteEachOfSame(
      l: LedgerState, ids: seq<Id>, a: Deltas, b: Deltas, transactionId: Option<Id>, cause: MovementCause)
    requires forall id :: id in ids ==> id in a && id in b && a[id] == b[id]
    ensures WriteEach(l, ids, a, transactionId, cause) == WriteEach(l, ids, b, transactionId, cause)
    decreases |ids|
  {
    if ids != [] && ids[0] in l.accounts {
      WriteEachOfSame(Moved(l, ids[0], a[ids[0]], transactionId, cause), ids[1..], a, b, transactionId, cause);
    }
  }

  /** Deltas that move the same accounts write the same ledger, movements included. */
  lemma SameMovesWriteAlike(l: LedgerState, a: Deltas, b: Deltas, transactionId: Option<Id>, cause: MovementCause)
    requires SameMoves(a, b)
    ensures WriteBalanceDeltas(l, a, transactionId, cause) == WriteBalanceDeltas(l, b, transactionId, cause)
  {
    WriteEachOfSame(l, Ascending(NonZero(a)), a, b, transactionId, cause);
  }

  lemma RunOne(accounts: AccountTable, e: BalanceEffect, scheduled: bool)
    ensures RunEffects(accounts, [e], scheduled) == RunEffect(accounts, e, scheduled)
  {
    assert [e][1..] == [];
  }

  lemma RunTwo(accounts: AccountTable, a: BalanceEffect, b: BalanceEffect, scheduled: bool)
    ensures RunEffects(accounts, [a] + [b], scheduled)
         == match RunEffect(accounts, a, scheduled)
            case Err(e) => Err(e)
            case Ok(middle) => RunEffect(middle, b, scheduled)
  {
    RunEffectsAppend(accounts, [a], [b], scheduled);
    RunOne(accounts, a, scheduled);
    match RunEffect(accounts, a, scheduled)
    case Err(_) =>
    case Ok(middle) => RunOne(middle, b, scheduled);
  }

  /** The rows the create service leaves are the rows of the transaction's own effects. */
  lemma CreateServiceRunsTheEffects(locked: AccountTable, t: Transaction)
    requires IsWellShaped(t) && t.status == COMPLETED && IdsOf(t) <= locked.Keys
    ensures CreateServiceRows(locked, t) == RunEffects(locked, BalanceEffects(t), false)
  {
    var source := BuildEffect(t, t.accountId, if t.kind == INCOME then Income else Expense, false);
    if t.kind == TRANSFER {
      RunTwo(locked, source, BuildEffect(t, t.destinationAccountId.value, Income, false), false);
    } else {
      RunOne(locked, source, false);
    }
  }

  /** The create service and the repository always agree on a transaction the entity accepts. */
  lemma CreateServiceAgrees(locked: AccountTable, t: Transaction)
    requires IsWellShaped(t) && IdsOf(t) <= locked.Keys
    ensures SameOutcome(RuleDeltas(ByCreateService, locked, t), RuleDeltas(ByRepository, locked, t))
  {
    if t.status == COMPLETED {
      CreateServiceRunsTheEffects(locked, t);
      match RunEffects(locked, BalanceEffects(t), false)
      case Err(_) =>
      case Ok(after) =>
        RunEffectsMoves(locked, BalanceEffects(t), false, t.accountId);
        UntouchedRowsStay(locked, BalanceEffects(t), false);
        assert NonZero(DeltasBetween(locked, after, IdsOf(t))) == NonZero(DeltasBetween(locked, after, Touched(BalanceEffects(t))));
    } else {
      assert RunEffects(locked, [], false) == Ok(locked);
    }
  }

  lemma UntouchedRowsStay(locked: AccountTable, effects: seq<BalanceEffect>, scheduled: bool)
    requires RunEffects(locked, effects, scheduled).Ok?
    ensures forall id :: id in locked && id !in Touched(effects) ==>
              id in RunEffects(locked, effects, scheduled).value
              && RunEffects(locked, effects, scheduled).value[id].balance == locked[id].balance
  {
    forall id | id in locked && id !in Touched(effects)
      ensures id in RunEffects(locked, effects, scheduled).value
      ensures RunEffects(locked, effects, scheduled).value[id].balance == locked[id].balance
    {
      RunEffectsMoves(locked, effects, scheduled, id);
      UntouchedSumIsZero(effects, id, locked[id].kind);
    }
  }

  lemma {:induction false} UntouchedSumIsZero(effects: seq<BalanceEffect>, id: Id, account: AccountKind)
    requires id !in Touched(effects)
    ensures SignedSum(effects, id, account) == 0
  {
    if effects != [] {
      assert effects[0] in effects;
      assert Touched(effects[1..]) <= Touched(effects);
      UntouchedSumIsZero(effects[1..], id, account);
    }
  }

  /** The transfer the payment service builds. */
  predicate IsPayment(t: Transaction) {
    IsWellShaped(t) && t.kind == TRANSFER && t.status == COMPLETED
  }

  /** Rows on which a payment from a card is refused alike by both: covered, within the limit, and more than is owed. */
  predicate BothRefuse(source: AccountRow, card: AccountRow, amount: int) {
    && source.balance >= amount
    && (source.creditLimit.Some? ==> source.balance + amount <= source.creditLimit.value)
    && card.balance < amount
  }

  /**
   A payment into a card: the payment service and the repository agree exactly when the source is
   not itself a card, which is what the service checks before it pays, or when both refuse because
   the card paid into owes less than the amount. Otherwise paying from a card would lower that
   card's debt where the repository raises it, or one of the two would refuse alone.
   */
  lemma PaymentServiceAgrees(locked: AccountTable, t: Transaction)
    requires IsPayment(t) && IdsOf(t) <= locked.Keys
    requires locked[t.destinationAccountId.value].kind == CreditCard
    ensures SameOutcome(RuleDeltas(ByPaymentService, locked, t), RuleDeltas(ByRepository, locked, t))
            <==> locked[t.accountId].kind != CreditCard
                 || BothRefuse(locked[t.accountId], locked[t.destinationAccountId.value], t.amount)
  {
    var source, card := t.accountId, t.destinationAccountId.value;
    RunTwo(locked, BuildEffect(t, source, Expense, false), BuildEffect(t, card, Income, false), false);
    assert Touched(BalanceEffects(t)) == IdsOf(t) by {
      assert BalanceEffects(t)[0].accountId == source && BalanceEffects(t)[1].accountId == card;
    }
    if locked[source].kind == CreditCard && RuleDeltas(ByPaymentService, locked, t).Ok? {
      assert RuleDeltas(ByPaymentService, locked, t).value[source] == -t.amount;
      if RuleDeltas(ByRepository, locked, t).Ok? {
        assert RuleDeltas(ByRepository, locked, t).value[source] == t.amount;
      }
    }
  }

  /** So wherever the payment service accepts, the two agree exactly when the source is not a card. */
  lemma AcceptedPaymentsAgree(locked: AccountTable, t: Transaction)
    requires IsPayment(t) && IdsOf(t) <= locked.Keys
    requires locked[t.destinationAccountId.value].kind == CreditCard
    requires RuleDeltas(ByPaymentService, locked, t).Ok?
    ensures SameOutcome(RuleDeltas(ByPaymentService, locked, t), RuleDeltas(ByRepository, locked, t))
            <==> locked[t.accountId].kind != CreditCard
  {
    hide EffectDeltas, BalanceEffects, SameOutcome;
    PaymentServiceAgrees(locked, t);
  }

  /** Both refuse alike: a card that owes 100 paying 50 into one that owes 10. */
  lemma CardsCanRefuseAlike()
    ensures var t := Transaction(0, 0, Some(1), 50, 0, TRANSFER, COMPLETED, None);
            var locked := map[0 := AccountRow(CreditCard, 100, None), 1 := AccountRow(CreditCard, 10, None)];
            RuleDeltas(ByPaymentService, locked, t) == RuleDeltas(ByRepository, locked, t) == Err(AccountRefused(PaymentExceedsInvoiceBalance))
  {
    var t := Transaction(0, 0, Some(1), 50, 0, TRANSFER, COMPLETED, None);
    var locked := map[0 := AccountRow(CreditCard, 100, None), 1 := AccountRow(CreditCard, 10, None)];
    RunTwo(locked, BuildEffect(t, 0, Expense, false), BuildEffect(t, 1, Income, false), false);
  }

  /** Otherwise they differ: a card that owes 100 paying 50 into one that owes 100 too. */
  lemma PayingFromACardDiffers()
    ensures var t := Transaction(0, 0, Some(1), 50, 0, TRANSFER, COMPLETED, None);
            var locked := map[0 := AccountRow(CreditCard, 100, None), 1 := AccountRow(CreditCard, 100, None)];
            && RuleDeltas(ByPaymentService, locked, t) == Ok(map[0 := -50, 1 := -50])
            && RuleDeltas(ByRepository, locked, t) == Ok(map[0 := 50, 1 := -50])
  {
    hide RunEffects;
    var t := Transaction(0, 0, Some(1), 50, 0, TRANSFER, COMPLETED, None);
    var locked := map[0 := AccountRow(CreditCard, 100, None), 1 := AccountRow(CreditCard, 100, None)];
    var lowered, raised, paid := AccountRow(CreditCard, 50, None), AccountRow(CreditCard, 150, None), AccountRow(CreditCard, 50, None);
    var source, card := BuildEffect(t, 0, Expense, false), BuildEffect(t, 1, Income, false);
    RunTwo(locked, source, card, false);
    assert [source, card] == [source] + [card] == BalanceEffects(t);
    assert Touched(BalanceEffects(t)) == {0, 1} by {
      assert BalanceEffects(t)[0].accountId == 0 && BalanceEffects(t)[1].accountId == 1;
    }
    assert IdsOf(t) == {0, 1};
    assert PaymentRows(locked, 0, 1, 50) == Ok(locked[0 := lowered][1 := paid]);
    assert RunEffects(locked, BalanceEffects(t), false) == Ok(locked[0 := raised][1 := paid]);
    assert DeltasBetween(locked, locked[0 := lowered][1 := paid], {0, 1}) == map[0 := -50, 1 := -50];
    assert DeltasBetween(locked, locked[0 := raised][1 := paid], {0, 1}) == map[0 := 50, 1 := -50];
  }
}
