/** A purchase in installments: a first row now, and a rule that generates the rest. */
module InstallmentPurchase {
  import opened Results
  import opened Collections
  import opened CivilCalendar
  import opened Accounts
  import opened Transactions
  import opened Recurrence
  import opened Generation
  import opened GenerationRuns
  import opened RecurringRepository
  import opened OverlappingRuns
  import opened Ledger
  import opened LedgerRuns
  import opened OperationResults
  import opened CompletionDates

  const MIN_PURCHASE_INSTALLMENTS := 2
  const MAX_INSTALLMENTS := 365

  datatype PurchaseRequest = PurchaseRequest(
    workspaceId: Id,
    accountId: Id,
    totalAmount: int,
    installments: int,
    kind: TransactionType,
    purchaseDate: Date
  )

  datatype PurchaseError =
    | InstallmentCountOutOfRange
    | InvestmentAccountNotAllowed
    | RuleRefused(rule: RuleError)
    | FirstRefused(first: TransactionError)

  datatype Plan = Plan(rule: Rule, first: Transaction)

  /** Division of big integers drops the fraction, toward zero. */
  function Truncated(a: int, n: int): int
    requires n > 0
  {
    if a >= 0 then a / n else -((-a) / n)
  }

  function Purchase(request: PurchaseRequest, account: AccountKind, id: Id, today: Date): Result<Plan, PurchaseError> {
    var n := request.installments;
    if n < MIN_PURCHASE_INSTALLMENTS || n > MAX_INSTALLMENTS then Err(InstallmentCountOutOfRange)
    else if account == Investment then Err(InvestmentAccountNotAllowed)
    else
      var base := Truncated(request.totalAmount, n);
      var remainder := request.totalAmount - base * n;
      var schedule := Schedule(request.purchaseDate, MONTHLY, 1);
      var rule := Rule(request.workspaceId, request.accountId, None, base, request.kind, schedule, Some(n),
                       Some(InstallmentEndDate(schedule, n)), Some(request.purchaseDate), true);
      match CreateRule(rule)
      case Err(e) => Err(RuleRefused(e))
      case Ok(_) =>
        var status := if request.purchaseDate > today then PENDING else COMPLETED;
        match Created(Transaction(request.workspaceId, request.accountId, None, base + remainder, request.purchaseDate,
                                  request.kind, status, Some(id)))
        case Err(e) => Err(FirstRefused(e))
        case Ok(first) => Ok(Plan.Plan(rule, first))
  }

  /** The amounts of a plan add up to the purchase, and differ only by what the division left over. */
  lemma AmountsAddUp(request: PurchaseRequest, account: AccountKind, id: Id, today: Date)
    requires Purchase(request, account, id, today).Ok?
    ensures var plan := Purchase(request, account, id, today).value;
            && plan.first.amount + (request.installments - 1) * plan.rule.amount == request.totalAmount
            && plan.rule.amount <= plan.first.amount < plan.rule.amount + request.installments
            && plan.rule.amount > 0
  {
    hide AddOccurrences, Truncated;
    var n, base := request.installments, Purchase(request, account, id, today).value.rule.amount;
    PartIsPositive(request.totalAmount, n);
    assert (n - 1) * base == base * n - base;
  }

  /**
   The first row is the purchase itself: dated on its day, and completed, so that it moves money at
   once, exactly when that day has come. The rule takes it as generated and repeats it by the month.
   */
  lemma PlanIsThePurchase(request: PurchaseRequest, account: AccountKind, id: Id, today: Date)
    requires Purchase(request, account, id, today).Ok?
    ensures var plan := Purchase(request, account, id, today).value;
            var first, rule := plan.first, plan.rule;
            && first.date == request.purchaseDate
            && (first.status == COMPLETED <==> request.purchaseDate <= today)
            && first.status == ResolvedStatus(request.purchaseDate, today, None)
            && first.workspaceId == request.workspaceId && first.accountId == request.accountId
            && first.destinationAccountId == None && first.kind == request.kind && first.recurringId == Some(id)
            && rule.workspaceId == request.workspaceId && rule.accountId == request.accountId
            && rule.destinationAccountId == None && rule.kind == request.kind
            && rule.schedule.startDate == request.purchaseDate && rule.schedule.frequency == MONTHLY && rule.schedule.interval == 1
            && rule.installmentCount == Some(request.installments) && rule.lastGenerated == Some(request.purchaseDate)
            && rule.endDate == Some(AddMonths(request.purchaseDate, request.installments - 1)) && rule.active
  {
    hide Truncated, AddMonths;
  }

  /** Storing it moves the account by the first amount exactly when the day has come, and no other account at all. */
  lemma PurchaseMovesMoneyOnItsDay(
      l: LedgerState, row: Id, request: PurchaseRequest, account: AccountKind, id: Id, today: Date, other: Id)
    requires Purchase(request, account, id, today).Ok? && other in l.accounts && request.accountId in l.accounts
    requires Attempt(l, Operation.Plan(row, Purchase(request, account, id, today).value.first)).Ok?
    ensures var first := Purchase(request, account, id, today).value.first;
            var next := Attempt(l, Operation.Plan(row, first)).value;
            var sign := if (request.kind == INCOME) == IsCard(l, other) then -1 else 1;
            MovesOnly(l, next, other, if other == request.accountId && request.purchaseDate <= today then sign * first.amount else 0)
  {
    hide Purchase;
    PlanIsThePurchase(request, account, id, today);
    PurchaseIsAccepted(request, account, id, today);
    AcceptedPlan(l, row, Purchase(request, account, id, today).value.first, other);
  }

  /** What a purchase is refused for, first reason first. */
  lemma PurchaseRefusals(request: PurchaseRequest, account: AccountKind, id: Id, today: Date)
    ensures request.installments < 2 || request.installments > 365 ==>
              Purchase(request, account, id, today) == Err(InstallmentCountOutOfRange)
    ensures 2 <= request.installments <= 365 && account == Investment ==>
              Purchase(request, account, id, today) == Err(InvestmentAccountNotAllowed)
    ensures 2 <= request.installments <= 365 && account != Investment && request.totalAmount < request.installments ==>
              Purchase(request, account, id, today) == Err(RuleRefused(InvalidRuleAmount))
    ensures 2 <= request.installments <= 365 && account != Investment && request.totalAmount >= request.installments
            && request.kind == TRANSFER ==>
              Purchase(request, account, id, today) == Err(RuleRefused(InvalidTransfer))
  {
    hide AddOccurrences, Truncated, Chain;
    var n := request.installments;
    if 2 <= n <= 365 {
      JumpIsBetween(Schedule(request.purchaseDate, MONTHLY, 1), n - 1);
      ChainStart(Schedule(request.purchaseDate, MONTHLY, 1), n - 1);
      PartIsPositive(request.totalAmount, n);
    }
  }

  /** A purchase is refused exactly for its count, its account, its type, or less than one cent for each part. */
  lemma PurchaseIsAccepted(request: PurchaseRequest, account: AccountKind, id: Id, today: Date)
    ensures Purchase(request, account, id, today).Ok?
            <==> && 2 <= request.installments <= 365 && account != Investment
                 && request.kind != TRANSFER && request.totalAmount >= request.installments
  {
    hide AddOccurrences, Truncated, Chain;
    var n := request.installments;
    if 2 <= n <= 365 {
      var schedule := Schedule(request.purchaseDate, MONTHLY, 1);
      JumpIsBetween(schedule, n - 1);
      ChainStart(schedule, n - 1);
      PartIsPositive(request.totalAmount, n);
    }
  }

  lemma ChainStart(s: Schedule, k: nat)
    ensures s.startDate <= Chain(s, k)
  {
    if k > 0 { ChainIncreases(s, 0, k); }
  }

  lemma PartIsPositive(total: int, n: int)
    requires n > 0
    ensures Truncated(total, n) > 0 <==> total >= n
    ensures 0 <= total ==> 0 <= total - Truncated(total, n) * n < n
  {
    if total >= 0 {
      var q, r := total / n, total % n;
      assert total == q * n + r;
      if q >= 1 { assert q * n >= n; }
    }
  }

  // Enough runs of the generator, whatever their cap.

  function RunsOn(store: Store, id: Id, threshold: Date, runs: nat): (r: Store)
    requires id in store.rules
    ensures r.rules.Keys == store.rules.Keys
    decreases runs
  {
    if runs == 0 then store else RunsOn(FinalStore(store, id, threshold), id, threshold, runs - 1)
  }

  ghost function Remaining(store: Store, id: Id, threshold: Date): nat
    requires id in store.rules
  {
    |Full(store.rules[id], FirstTarget(store.rules[id]), threshold)|
  }

  lemma RunKeepsRule(store: Store, id: Id, terms: Rule, first: Option<Transaction>, threshold: Date)
    requires RuleInvariant(store, id, terms, first, threshold)
    ensures RuleInvariant(FinalStore(store, id, threshold), id, terms, first, threshold)
  {
    hide IsListed, IsAccounted, RowsAreOwn, PersistRun, IsAccepted;
    if IsListed(store.rules[id], threshold) {
      PersistKeepsRule(Workshop(store, map[0 := Worker(id, store.rules[id], threshold)]), 0, id, terms, first, threshold);
    }
  }

  /** A run takes up to its cap off what remains. */
  lemma RunReducesRemaining(store: Store, id: Id, terms: Rule, first: Option<Transaction>, threshold: Date)
    requires RuleInvariant(store, id, terms, first, threshold)
    ensures Remaining(FinalStore(store, id, threshold), id, threshold)
         == AtLeastZero(Remaining(store, id, threshold) - MaxGenerations(terms.schedule.frequency))
  {
    hide Full, FullFindsEnd, FirstTarget, MaxGenerations, Emit, FindsEnd, Reached, RowsAreOwn, IsPastEnd;
    var rule := store.rules[id];
    var k: nat :| AccountsFor(store.rows, id, rule, k);
    if IsListed(rule, threshold) {
      var target, cap := FirstTarget(rule), MaxGenerations(rule.schedule.frequency);
      var all, next := Full(rule, target, threshold), FinalStore(store, id, threshold).rules[id];
      CappedIsPrefix(rule, target, threshold, cap);
      var n := if cap <= |all| then cap else |all|;
      assert all[..n] == Emitted(rule, threshold);
      NextTarget(rule, next, all[..n]);
      FullFrom(rule, target, threshold, n);
      FullOfSameTerms(next, rule, FirstTarget(next), threshold);
    } else {
      TermsDecide(rule, terms, id, 0);
      UnlistedLeavesNothing(rule, k, threshold);
      NothingRemains(rule, k, threshold);
    }
  }

  lemma NothingRemains(rule: Rule, k: nat, threshold: Date)
    requires Reached(rule, k) && IsAccepted(rule) && !IsDueDate(rule, k, threshold)
    ensures |Full(rule, FirstTarget(rule), threshold)| == 0
  {
    hide Full, Reached, FirstTarget, Chain, IsAccepted;
    ReachedTarget(rule, k);
    FullMissesNothing(rule, k, 0, threshold);
  }

  function AtLeastZero(n: int): nat {
    if n < 0 then 0 else n
  }

  /** Enough capped runs complete a rule, starting from any state overlapping runs may have left. */
  lemma {:induction false} EnoughRunsComplete(store: Store, id: Id, terms: Rule, first: Option<Transaction>, threshold: Date, runs: nat)
    requires RuleInvariant(store, id, terms, first, threshold)
    requires Remaining(store, id, threshold) < runs * MaxGenerations(terms.schedule.frequency)
    ensures IsComplete(RunsOn(store, id, threshold, runs).rows, id, terms, threshold)
    ensures RuleInvariant(RunsOn(store, id, threshold, runs), id, terms, first, threshold)
    decreases runs
  {
    hide IsAccounted, RowsAreOwn, Remaining, FinalStore, MaxGenerations, IsAccepted, IsComplete;
    var cap := MaxGenerations(terms.schedule.frequency);
    RunKeepsRule(store, id, terms, first, threshold);
    var next := FinalStore(store, id, threshold);
    if runs == 1 {
      LastRunCompletes(store, id, terms, first, threshold);
    } else {
      RunReducesRemaining(store, id, terms, first, threshold);
      SomeGenerations(terms.schedule.frequency);
      assert runs * cap == (runs - 1) * cap + cap;
      assert (runs - 1) * cap > 0;
      EnoughRunsComplete(next, id, terms, first, threshold, runs - 1);
    }
  }

  lemma LastRunCompletes(store: Store, id: Id, terms: Rule, first: Option<Transaction>, threshold: Date)
    requires RuleInvariant(store, id, terms, first, threshold)
    requires Remaining(store, id, threshold) < MaxGenerations(terms.schedule.frequency)
    ensures IsComplete(FinalStore(store, id, threshold).rows, id, terms, threshold)
  {
    hide IsAccounted, FinalStore, MaxGenerations, FirstTarget, Full;
    var rule := store.rules[id];
    InvariantOfCurrent(store, id, terms, first, threshold);
    FinalRunCompletes(store, id, first, threshold);
    CompleteOfSameTerms(FinalStore(store, id, threshold).rows, id, rule, terms, threshold);
  }

  lemma InvariantOfCurrent(store: Store, id: Id, terms: Rule, first: Option<Transaction>, bound: Date)
    requires RuleInvariant(store, id, terms, first, bound)
    ensures RuleInvariant(store, id, store.rules[id], first, bound)
  {
    hide IsAccounted, Chain, IsAccepted, IsPastEnd;
    var rule := store.rules[id];
    TermsDecide(rule, terms, id, 0);
    forall date | (id, date) in store.rows
      ensures exists i: nat :: IsOwnRow(rule, id, first, date, store.rows[(id, date)], i)
    {
      TermsDecide(rule, terms, id, date);
      var i: nat :| IsOwnRow(terms, id, first, date, store.rows[(id, date)], i);
      assert IsOwnRow(rule, id, first, date, store.rows[(id, date)], i);
    }
  }

  lemma CompleteOfSameTerms(rows: RowTable, id: Id, a: Rule, b: Rule, threshold: Date)
    requires SameTerms(a, b) && IsComplete(rows, id, a, threshold)
    ensures IsComplete(rows, id, b, threshold)
  {
    hide Chain;
    forall i: nat
      ensures IsDueDate(a, i, threshold) == IsDueDate(b, i, threshold)
    {
    }
  }

  // The plan.

  function PlanStore(store: Store, id: Id, plan: Plan): Store {
    Store(store.rows[(id, plan.first.date) := plan.first], store.rules[id := plan.rule])
  }

  predicate IsFresh(store: Store, id: Id) {
    id !in store.rules && forall key :: key in store.rows ==> key.0 != id
  }

  /** A stored plan is a rule in good order from the start, for any threshold from its date on. */
  lemma PlanStartsInOrder(store: Store, id: Id, request: PurchaseRequest, account: AccountKind, today: Date, bound: Date)
    requires IsFresh(store, id) && Purchase(request, account, id, today).Ok? && request.purchaseDate <= bound
    ensures var plan := Purchase(request, account, id, today).value;
            RuleInvariant(PlanStore(store, id, plan), id, plan.rule, Some(plan.first), bound)
  {
    hide AddOccurrences;
    var plan := Purchase(request, account, id, today).value;
    var s := PlanStore(store, id, plan);
    var schedule := plan.rule.schedule;
    assert Chain(schedule, 0) == request.purchaseDate;
    EndDateCountsTheChain(schedule, request.installments, 0);
    assert AccountsFor(s.rows, id, plan.rule, 1);
    assert IsOwnRow(plan.rule, id, Some(plan.first), request.purchaseDate, plan.first, 0);
    CreatedRulesAreAccepted(plan.rule, id, 0);
  }

  ghost function DatesOf(rows: RowTable, id: Id): set<Date> {
    set key | key in rows && key.0 == id :: key.1
  }

  ghost function ChainDates(s: Schedule, n: nat): set<Date> {
    set i: nat | i < n :: Chain(s, i)
  }

  lemma {:induction false} ChainDatesAreMany(s: Schedule, n: nat)
    ensures |ChainDates(s, n)| == n
  {
    hide Chain;
    if n > 0 {
      ChainDatesAreMany(s, n - 1);
      if Chain(s, n - 1) in ChainDates(s, n - 1) {
        var i: nat :| i < n - 1 && Chain(s, i) == Chain(s, n - 1);
        ChainIsInjective(s, i, n - 1);
      }
      assert ChainDates(s, n) == ChainDates(s, n - 1) + {Chain(s, n - 1)};
    } else {
      assert ChainDates(s, 0) == {};
    }
  }

  lemma FewerThanPlanned(dates: set<Date>, all: set<Date>)
    requires dates <= all
    ensures |dates| <= |all|
  {
    assert all == dates + (all - dates);
  }

  /** The rule of a plan has exactly its installments' dates before its end, drift or no drift. */
  predicate IsPlanOf(rule: Rule, n: nat) {
    n >= 1 && rule.endDate == Some(InstallmentEndDate(rule.schedule, n))
  }

  /** At no time, however many runs overlap, does a plan of n parts have more than n rows. */
  lemma NeverMoreThanPlanned(store: Store, id: Id, terms: Rule, n: nat, first: Option<Transaction>, bound: Date)
    requires RuleInvariant(store, id, terms, first, bound) && IsPlanOf(terms, n)
    ensures |DatesOf(store.rows, id)| <= n
    ensures forall date :: date in DatesOf(store.rows, id) ==> 1 <= OccurrencePosition(terms.schedule, date) <= n
  {
    hide Chain, IsAccounted, IsAccepted, AddOccurrences, OccurrencePosition;
    var s := terms.schedule;
    forall date | date in DatesOf(store.rows, id)
      ensures date in ChainDates(s, n) && 1 <= OccurrencePosition(s, date) <= n
    {
      var i: nat :| IsOwnRow(terms, id, first, date, store.rows[(id, date)], i);
      EndDateCountsTheChain(s, n, i);
      ChainIsNumbered(s, i);
    }
    ChainDatesAreMany(s, n);
    FewerThanPlanned(DatesOf(store.rows, id), ChainDates(s, n));
  }

  ghost function PlanTotal(rows: RowTable, id: Id, s: Schedule, n: nat): int
    requires forall i: nat :: i < n ==> (id, Chain(s, i)) in rows
  {
    if n == 0 then 0 else PlanTotal(rows, id, s, n - 1) + rows[(id, Chain(s, n - 1))].amount
  }

  lemma RowOfInstallment(rows: RowTable, id: Id, rule: Rule, first: Transaction, bound: Date, i: nat)
    requires RowsAreOwn(rows, id, rule, Some(first), bound) && (id, Chain(rule.schedule, i)) in rows
    ensures rows[(id, Chain(rule.schedule, i))] == if i == 0 then first else OccurrenceOf(rule, id, Chain(rule.schedule, i))
  {
    hide Chain, IsPastEnd;
    var date := Chain(rule.schedule, i);
    var j: nat :| IsOwnRow(rule, id, Some(first), date, rows[(id, date)], j);
    ChainIsInjective(rule.schedule, i, j);
    ChainIsInjective(rule.schedule, j, i);
  }

  lemma {:induction false} TotalOfRows(rows: RowTable, id: Id, rule: Rule, first: Transaction, bound: Date, n: nat)
    requires RowsAreOwn(rows, id, rule, Some(first), bound)
    requires forall i: nat :: i < n ==> (id, Chain(rule.schedule, i)) in rows
    ensures PlanTotal(rows, id, rule.schedule, n) == if n == 0 then 0 else first.amount + (n - 1) * rule.amount
  {
    hide Chain, RowsAreOwn;
    if n > 0 {
      TotalOfRows(rows, id, rule, first, bound, n - 1);
      RowOfInstallment(rows, id, rule, first, bound, n - 1);
      assert n > 1 ==> (n - 1) * rule.amount == (n - 2) * rule.amount + rule.amount;
    }
  }

  lemma CompletePlan(rows: RowTable, id: Id, rule: Rule, n: nat, threshold: Date)
    requires IsComplete(rows, id, rule, threshold) && IsPlanOf(rule, n) && Chain(rule.schedule, n - 1) <= threshold
    ensures forall i: nat :: (id, Chain(rule.schedule, i)) in rows <==> i < n
    ensures DatesOf(rows, id) == ChainDates(rule.schedule, n)
  {
    hide Chain, AddOccurrences;
    var s := rule.schedule;
    forall i: nat
      ensures IsDueDate(rule, i, threshold) <==> i < n
    {
      EndDateCountsTheChain(s, n, i);
      ChainIsInjective(s, n - 1, i);
    }
    forall i: nat
      ensures (id, Chain(s, i)) in rows <==> i < n
    {
      if (id, Chain(s, i)) in rows {
        var j: nat :| Chain(s, i) == Chain(s, j) && IsDueDate(rule, j, threshold);
        ChainIsInjective(s, i, j);
        ChainIsInjective(s, j, i);
      }
    }
    forall date
      ensures date in DatesOf(rows, id) <==> date in ChainDates(s, n)
    {
      if date in DatesOf(rows, id) {
        assert (id, date) in rows;
      }
    }
  }

  /**
   A purchase in n parts: from any state its plan may reach, enough runs past its last date leave
   exactly n rows, numbered 1 to n, whose amounts add up to what was bought.
   */
  lemma PurchaseIsFullyGenerated(
      store: Store, id: Id, request: PurchaseRequest, account: AccountKind, today: Date, threshold: Date, runs: nat)
    requires Purchase(request, account, id, today).Ok?
    requires var plan := Purchase(request, account, id, today).value;
             && RuleInvariant(store, id, plan.rule, Some(plan.first), threshold)
             && Chain(plan.rule.schedule, request.installments - 1) <= threshold
             && Remaining(store, id, threshold) < runs * MaxGenerations(MONTHLY)
    ensures var plan, rows := Purchase(request, account, id, today).value, RunsOn(store, id, threshold, runs).rows;
            && |DatesOf(rows, id)| == request.installments
            && (forall i: nat :: (id, Chain(plan.rule.schedule, i)) in rows <==> i < request.installments)
            && PlanTotal(rows, id, plan.rule.schedule, request.installments) == request.totalAmount
  {
    hide Chain, IsAccounted, Remaining, IsAccepted, RowsAreOwn, RunsOn, AddOccurrences, MaxGenerations, IsComplete, Purchase, IsDueDate;
    var plan, n := Purchase(request, account, id, today).value, request.installments;
    PlanTerms(request, account, id, today);
    EnoughRunsComplete(store, id, plan.rule, Some(plan.first), threshold, runs);
    var rows := RunsOn(store, id, threshold, runs).rows;
    CompletePlan(rows, id, plan.rule, n, threshold);
    ChainDatesAreMany(plan.rule.schedule, n);
    TotalOfRows(rows, id, plan.rule, plan.first, threshold, n);
    AmountsAddUp(request, account, id, today);
  }

  lemma PlanTerms(request: PurchaseRequest, account: AccountKind, id: Id, today: Date)
    requires Purchase(request, account, id, today).Ok?
    ensures var plan := Purchase(request, account, id, today).value;
            && request.installments >= 2 && IsPlanOf(plan.rule, request.installments)
            && plan.rule.schedule == Schedule(request.purchaseDate, MONTHLY, 1)
  {
  }

  /** From the purchase on, any overlapping runs keep its plan in the order the results above ask for. */
  lemma PlanStaysInOrder(
      store: Store, id: Id, request: PurchaseRequest, account: AccountKind, today: Date, bound: Date,
      states: seq<Workshop>, steps: seq<WorkshopStep>)
    requires IsFresh(store, id) && Purchase(request, account, id, today).Ok? && request.purchaseDate <= bound
    requires IsTrace(states, steps, bound)
    requires states[0] == Workshop(PlanStore(store, id, Purchase(request, account, id, today).value), map[])
    ensures var plan := Purchase(request, account, id, today).value;
            RuleInvariant(states[|steps|].store, id, plan.rule, Some(plan.first), bound)
            && |DatesOf(states[|steps|].store.rows, id)| <= request.installments
  {
    hide RuleInvariant, CanStep, Stepped, IsPlanOf, Purchase, DatesOf;
    var plan := Purchase(request, account, id, today).value;
    PlanStartsInOrder(store, id, request, account, today, bound);
    OverlappingRunsKeepInv(states, steps, id, plan.rule, Some(plan.first), bound);
    PlanTerms(request, account, id, today);
    NeverMoreThanPlanned(states[|steps|].store, id, plan.rule, request.installments, Some(plan.first), bound);
  }
}
