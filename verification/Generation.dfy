/** The catch-up generator: one recurring rule, brought up to a threshold date. */
module Generation {
  import opened Results
  import opened Collections
  import opened CivilCalendar
  import opened Transactions
  import opened Recurrence

  datatype Rule = Rule(
    workspaceId: Id,
    accountId: Id,
    destinationAccountId: Option<Id>,
    amount: int,
    kind: TransactionType,
    schedule: Schedule,
    installmentCount: Option<nat>,
    endDate: Option<Date>,
    lastGenerated: Option<Date>,
    active: bool
  )

  datatype RuleError = InvalidRuleAmount | InvalidDateRange | InvalidTransfer

  function CreateRule(rule: Rule): Result<Rule, RuleError> {
    if rule.amount <= 0 then Err(InvalidRuleAmount)
    else if rule.endDate.Some? && rule.endDate.value < rule.schedule.startDate then Err(InvalidDateRange)
    else if rule.kind == TRANSFER && (rule.destinationAccountId.None? || rule.destinationAccountId.value == rule.accountId)
    then Err(InvalidTransfer)
    else Ok(rule)
  }

  function OccurrenceOf(rule: Rule, id: Id, date: Date): Transaction {
    Transaction(rule.workspaceId, rule.accountId, rule.destinationAccountId, rule.amount, date, rule.kind, PENDING, Some(id))
  }

  /** A pending transaction of the rule, with the rule's own workspace, accounts, amount and type. */
  predicate RepeatsTheRule(t: Transaction, rule: Rule, id: Id) {
    && t.workspaceId == rule.workspaceId && t.accountId == rule.accountId
    && t.destinationAccountId == rule.destinationAccountId
    && t.amount == rule.amount && t.kind == rule.kind
    && t.status == PENDING && t.recurringId == Some(id)
  }

  predicate IsAccepted(rule: Rule) {
    Created(OccurrenceOf(rule, 0, rule.schedule.startDate)).Ok?
  }

  /** A rule that could be created generates transactions that can be. */
  lemma CreatedRulesAreAccepted(rule: Rule, id: Id, date: Date)
    ensures Created(OccurrenceOf(rule, id, date)).Ok? == IsAccepted(rule)
    ensures Created(OccurrenceOf(rule, id, date)).Ok? ==> Created(OccurrenceOf(rule, id, date)).value == OccurrenceOf(rule, id, date)
    ensures CreateRule(rule).Ok? ==> IsAccepted(rule)
  {
  }

  predicate IsPastEnd(rule: Rule, date: Date) {
    rule.endDate.Some? && date > rule.endDate.value
  }

  function Next(rule: Rule, date: Date): Date {
    NextGenerationDate(rule.schedule, date)
  }

  function FirstTarget(rule: Rule): Date {
    if rule.lastGenerated.Some? then Next(rule, rule.lastGenerated.value) else rule.schedule.startDate
  }

  function MaxGenerations(frequency: Frequency): nat {
    match frequency
    case WEEKLY => 104
    case MONTHLY => 24
    case YEARLY => 10
  }

  lemma SomeGenerations(frequency: Frequency)
    ensures MaxGenerations(frequency) > 0
  {
  }

  // What a run emits, and whether it finds the end of the rule.

  function Emit(rule: Rule, target: Date, threshold: Date, cap: nat): seq<Date>
    decreases cap
  {
    if target > threshold || cap == 0 || IsPastEnd(rule, target) || !IsAccepted(rule) then []
    else [target] + Emit(rule, Next(rule, target), threshold, cap - 1)
  }

  predicate FindsEnd(rule: Rule, target: Date, threshold: Date, cap: nat)
    decreases cap
  {
    if target > threshold || cap == 0 then false
    else if IsPastEnd(rule, target) then true
    else IsAccepted(rule) && FindsEnd(rule, Next(rule, target), threshold, cap - 1)
  }

  function Emitted(rule: Rule, threshold: Date): seq<Date> {
    Emit(rule, FirstTarget(rule), threshold, MaxGenerations(rule.schedule.frequency))
  }

  function LastOf(dates: seq<Date>, otherwise: Option<Date>): Option<Date> {
    if dates == [] then otherwise else Some(dates[|dates| - 1])
  }

  /** The rule as a run leaves it. */
  function Generated(rule: Rule, threshold: Date): Rule {
    rule.(lastGenerated := LastOf(Emitted(rule, threshold), rule.lastGenerated),
          active := rule.active && !FindsEnd(rule, FirstTarget(rule), threshold, MaxGenerations(rule.schedule.frequency)))
  }

  function OccurrencesOf(rule: Rule, id: Id, dates: seq<Date>): seq<Transaction> {
    seq(|dates|, i requires 0 <= i < |dates| => OccurrenceOf(rule, id, dates[i]))
  }

  /** There is something to generate, and the transaction entity refuses it. */
  predicate MeetsRefusal(rule: Rule, threshold: Date) {
    FirstTarget(rule) <= threshold && !IsPastEnd(rule, FirstTarget(rule)) && !IsAccepted(rule)
  }

  // The entity, and the loop over it.

  class RecurringTransaction {
    const id: Id
    const terms: Rule
    var lastGenerated: Option<Date>
    var active: bool

    function State(): Rule
      reads this
    {
      terms.(lastGenerated := lastGenerated, active := active)
    }

    constructor (id: Id, rule: Rule)
      ensures this.id == id && State() == rule
    {
      this.id, terms, lastGenerated, active := id, rule, rule.lastGenerated, rule.active;
    }

    method MarkAsGenerated(occurrenceDate: Date)
      modifies this
      ensures State() == old(State()).(lastGenerated := Some(occurrenceDate))
    {
      lastGenerated := Some(occurrenceDate);
    }

    method Deactivate()
      modifies this
      ensures State() == old(State()).(active := false)
    {
      active := false;
    }
  }

  lemma NoOccurrences(rule: Rule, id: Id)
    ensures OccurrencesOf(rule, id, []) == []
  {
  }

  lemma MoreOccurrences(rule: Rule, id: Id, dates: seq<Date>, date: Date)
    ensures OccurrencesOf(rule, id, dates + [date]) == OccurrencesOf(rule, id, dates) + [OccurrenceOf(rule, id, date)]
  {
  }

  lemma OccurrencesRepeatTheRule(rule: Rule, id: Id, dates: seq<Date>)
    ensures |OccurrencesOf(rule, id, dates)| == |dates|
    ensures forall i :: 0 <= i < |dates| ==>
              RepeatsTheRule(OccurrencesOf(rule, id, dates)[i], rule, id) && OccurrencesOf(rule, id, dates)[i].date == dates[i]
  {
  }

  lemma Unrolled(rule: Rule, dates: seq<Date>, target: Date, threshold: Date, cap: nat)
    requires target <= threshold
    ensures cap > 0 && !IsPastEnd(rule, target) && IsAccepted(rule) ==>
              && dates + Emit(rule, target, threshold, cap) == dates + [target] + Emit(rule, Next(rule, target), threshold, cap - 1)
              && FindsEnd(rule, target, threshold, cap) == FindsEnd(rule, Next(rule, target), threshold, cap - 1)
  {
    hide NextGenerationDate, IsAccepted, IsPastEnd;
  }

  lemma Stopped(rule: Rule, target: Date, threshold: Date, cap: nat)
    requires target > threshold || cap == 0 || IsPastEnd(rule, target) || !IsAccepted(rule)
    ensures Emit(rule, target, threshold, cap) == []
    ensures FindsEnd(rule, target, threshold, cap) <==> target <= threshold && cap > 0 && IsPastEnd(rule, target)
  {
  }

  method GenerateTransactionsForRecurring(recurring: RecurringTransaction, threshold: Date)
    returns (transactionsToCreate: seq<Transaction>, failed: bool)
    modifies recurring
    ensures transactionsToCreate == OccurrencesOf(old(recurring.State()), recurring.id, Emitted(old(recurring.State()), threshold))
    ensures recurring.State() == Generated(old(recurring.State()), threshold)
    ensures failed <==> MeetsRefusal(old(recurring.State()), threshold)
    ensures |transactionsToCreate| == |Emitted(old(recurring.State()), threshold)|
    ensures forall i :: 0 <= i < |transactionsToCreate| ==>
              RepeatsTheRule(transactionsToCreate[i], old(recurring.State()), recurring.id)
              && transactionsToCreate[i].date == Emitted(old(recurring.State()), threshold)[i]
  {
    hide NextGenerationDate, Created, MaxGenerations, Emit, FindsEnd, OccurrencesOf;
    ghost var rule := recurring.State();
    ghost var cap := MaxGenerations(rule.schedule.frequency);
    assert cap > 0 by { SomeGenerations(rule.schedule.frequency); }
    ghost var dates: seq<Date> := [];
    NoOccurrences(rule, recurring.id);
    transactionsToCreate, failed := [], false;
    var targetDate := FirstTarget(recurring.State());
    var generationCount := 0;
    while targetDate <= threshold
      invariant generationCount == |dates| <= cap && cap > 0
      invariant if dates == [] then targetDate == FirstTarget(rule) else IsAccepted(rule)
      invariant !failed
      invariant recurring.State() == rule.(lastGenerated := LastOf(dates, rule.lastGenerated))
      invariant transactionsToCreate == OccurrencesOf(rule, recurring.id, dates)
      invariant Emitted(rule, threshold) == dates + Emit(rule, targetDate, threshold, cap - generationCount)
      invariant FindsEnd(rule, FirstTarget(rule), threshold, cap) == FindsEnd(rule, targetDate, threshold, cap - generationCount)
      decreases threshold - targetDate
    {
      Unrolled(rule, dates, targetDate, threshold, cap - generationCount);
      if generationCount >= MaxGenerations(recurring.terms.schedule.frequency) {
        break;
      }
      if recurring.terms.endDate.Some? && targetDate > recurring.terms.endDate.value {
        recurring.Deactivate();
        break;
      }
      var transactionOrError := Created(OccurrenceOf(recurring.State(), recurring.id, targetDate));
      CreatedRulesAreAccepted(rule, recurring.id, targetDate);
      assert OccurrenceOf(recurring.State(), recurring.id, targetDate) == OccurrenceOf(rule, recurring.id, targetDate);
      if transactionOrError.Err? {
        failed := true;
        break;
      }
      MoreOccurrences(rule, recurring.id, dates, targetDate);
      transactionsToCreate := transactionsToCreate + [transactionOrError.value];
      recurring.MarkAsGenerated(targetDate);
      StepIsLater(rule.schedule, targetDate);
      dates := dates + [targetDate];
      targetDate := Next(recurring.State(), targetDate);
      generationCount := generationCount + 1;
    }
    Stopped(rule, targetDate, threshold, cap - generationCount);
    assert dates + [] == dates;
    OccurrencesRepeatTheRule(rule, recurring.id, dates);
  }
}
