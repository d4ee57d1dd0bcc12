/**
 What a month is still expected to bring from recurring rules: the dates a rule has not
 generated yet, walked in the projection's own loop.
 */
module MonthProjection {
  import opened Results
  import opened Collections
  import opened CivilCalendar
  import opened Transactions
  import opened Recurrence
  import opened Generation
  import opened GenerationRuns
  import opened RecurringRepository

  datatype Month = Month(start: Date, end: Date)

  const MAX_OCCURRENCE_STEPS := 1000

  /** A rule as the projection reads it, with the dates of the month that already have a row. */
  datatype RuleSnapshot = RuleSnapshot(rule: Rule, materialized: set<Date>)

  predicate IsVisible(rule: Rule, month: Month) {
    && rule.active && rule.kind != TRANSFER
    && rule.schedule.startDate <= month.end
    && (rule.endDate.None? || rule.endDate.value >= month.start)
  }

  function MaterializedDates(rows: RowTable, id: Id, month: Month): set<Date> {
    set key | key in rows && key.0 == id && month.start <= key.1 <= month.end :: key.1
  }

  function VisibleIds(store: Store, month: Month): set<Id> {
    set id | id in store.rules && IsVisible(store.rules[id], month)
  }

  function SnapshotsOf(store: Store, ids: seq<Id>, month: Month): seq<RuleSnapshot>
    requires forall id :: id in ids ==> id in store.rules
  {
    seq(|ids|, i requires 0 <= i < |ids| => RuleSnapshot(store.rules[ids[i]], MaterializedDates(store.rows, ids[i], month)))
  }

  function FindActiveRecurringRules(store: Store, month: Month): seq<RuleSnapshot> {
    SnapshotsOf(store, Ascending(VisibleIds(store, month)), month)
  }

  // The loop, and what it computes.

  /** The amounts of the dates that are in the month and have no row. */
  function PendingSum(dates: seq<Date>, snapshot: RuleSnapshot, month: Month): int {
    if dates == [] then 0
    else PendingSum(dates[..|dates| - 1], snapshot, month) + PendingPart(dates[|dates| - 1], snapshot, month)
  }

  function PendingPart(date: Date, snapshot: RuleSnapshot, month: Month): int {
    if month.start <= date <= month.end && date !in snapshot.materialized then snapshot.rule.amount else 0
  }

  /** The dates a rule still has up to a limit, at most a number of steps. */
  function Walk(rule: Rule, cursor: Date, end: Date, steps: nat): seq<Date>
    decreases steps
  {
    if steps == 0 || cursor > end || IsPastEnd(rule, cursor) then []
    else [cursor] + Walk(rule, Next(rule, cursor), end, steps - 1)
  }

  method SumRuleOccurrences(snapshot: RuleSnapshot, month: Month) returns (total: int)
    ensures total == PendingSum(Walk(snapshot.rule, FirstTarget(snapshot.rule), month.end, 1000), snapshot, month)
  {
    hide NextGenerationDate;
    var rule := snapshot.rule;
    var cursor: Date := FirstTarget(rule);
    total := 0;
    ghost var dates: seq<Date> := [];
    ghost var all := Walk(rule, cursor, month.end, MAX_OCCURRENCE_STEPS);
    for step := 0 to MAX_OCCURRENCE_STEPS
      invariant total == PendingSum(dates, snapshot, month)
      invariant all == dates + Walk(rule, cursor, month.end, MAX_OCCURRENCE_STEPS - step)
    {
      if cursor > month.end || IsPastEnd(rule, cursor) {
        break;
      }
      if cursor >= month.start && cursor !in snapshot.materialized {
        total := total + rule.amount;
      }
      StepsAgree(rule.schedule, cursor);
      ghost var more := dates + [cursor];
      assert dates + Walk(rule, cursor, month.end, MAX_OCCURRENCE_STEPS - step)
          == more + Walk(rule, Next(rule, cursor), month.end, MAX_OCCURRENCE_STEPS - step - 1);
      assert more[..|more| - 1] == dates;
      dates := more;
      cursor := NextOccurrence(rule.schedule.(startDate := cursor));
    }
    assert all == dates;
  }

  datatype PeriodTotals = PeriodTotals(totalIncome: int, totalExpense: int)

  function RuleSum(snapshot: RuleSnapshot, month: Month): int {
    PendingSum(Walk(snapshot.rule, FirstTarget(snapshot.rule), month.end, MAX_OCCURRENCE_STEPS), snapshot, month)
  }

  function TotalOf(snapshots: seq<RuleSnapshot>, month: Month, kind: TransactionType): int {
    if snapshots == [] then 0
    else
      (if snapshots[0].rule.kind == kind then RuleSum(snapshots[0], month) else 0) + TotalOf(snapshots[1..], month, kind)
  }

  method SumNotYetGeneratedOccurrences(snapshots: seq<RuleSnapshot>, month: Month) returns (totals: PeriodTotals)
    ensures totals == PeriodTotals(TotalOf(snapshots, month, INCOME), TotalOf(snapshots, month, EXPENSE))
  {
    hide RuleSum;
    var income, expense := 0, 0;
    for i := 0 to |snapshots|
      invariant income + TotalOf(snapshots[i..], month, INCOME) == TotalOf(snapshots, month, INCOME)
      invariant expense + TotalOf(snapshots[i..], month, EXPENSE) == TotalOf(snapshots, month, EXPENSE)
    {
      assert snapshots[i..][1..] == snapshots[i + 1..];
      var amount := SumRuleOccurrences(snapshots[i], month);
      assert amount == RuleSum(snapshots[i], month) by { RuleSumIs(snapshots[i], month); }
      if snapshots[i].rule.kind == INCOME { income := income + amount; }
      if snapshots[i].rule.kind == EXPENSE { expense := expense + amount; }
    }
    totals := PeriodTotals(income, expense);
  }

  lemma RuleSumIs(snapshot: RuleSnapshot, month: Month)
    ensures RuleSum(snapshot, month)
         == PendingSum(Walk(snapshot.rule, FirstTarget(snapshot.rule), month.end, MAX_OCCURRENCE_STEPS), snapshot, month)
  {
  }

  // Scheduled: the pending rows of the month.

  function ScheduledPart(row: Transaction, month: Month, kind: TransactionType): int {
    if row.status == PENDING && row.kind == kind && month.start <= row.date <= month.end then row.amount else 0
  }

  ghost function Scheduled(rows: RowTable, month: Month, kind: TransactionType): int
    decreases |rows|
  {
    if rows == map[] then 0
    else
      var key :| key in rows;
      ScheduledPart(rows[key], month, kind) + Scheduled(rows - {key}, month, kind)
  }

  lemma {:induction false} ScheduledTakes(rows: RowTable, key: (Id, Date), month: Month, kind: TransactionType)
    requires key in rows
    ensures Scheduled(rows, month, kind) == ScheduledPart(rows[key], month, kind) + Scheduled(rows - {key}, month, kind)
    decreases |rows|
  {
    hide ScheduledPart;
    var first :| first in rows && Scheduled(rows, month, kind)
                                  == ScheduledPart(rows[first], month, kind) + Scheduled(rows - {first}, month, kind);
    if first != key {
      ScheduledTakes(rows - {first}, key, month, kind);
      ScheduledTakes(rows - {key}, first, month, kind);
      assert rows - {first} - {key} == rows - {key} - {first};
    }
  }

  lemma ScheduledAdds(rows: RowTable, key: (Id, Date), row: Transaction, month: Month, kind: TransactionType)
    requires key !in rows
    ensures Scheduled(rows[key := row], month, kind) == Scheduled(rows, month, kind) + ScheduledPart(row, month, kind)
  {
    ScheduledTakes(rows[key := row], key, month, kind);
    assert rows[key := row] - {key} == rows;
  }

  /** A month with no pending row of a type has nothing scheduled of it. */
  lemma {:induction false} NothingIsScheduled(rows: RowTable, month: Month, kind: TransactionType)
    requires forall key :: key in rows && rows[key].status == PENDING && rows[key].kind == kind
                           ==> !(month.start <= rows[key].date <= month.end)
    ensures Scheduled(rows, month, kind) == 0
    decreases |rows|
  {
    if rows != map[] {
      var key :| key in rows;
      ScheduledTakes(rows, key, month, kind);
      NothingIsScheduled(rows - {key}, month, kind);
    }
  }

  // Not yet generated, without a limit on steps.

  /** Dates of the month the rule will still generate from a target on, each with its amount. */
  ghost function NotYet(rows: RowTable, id: Id, rule: Rule, target: Date, month: Month): int
    decreases month.end + 1 - target
  {
    StepIsLater(rule.schedule, target);
    if target > month.end || IsPastEnd(rule, target) then 0
    else
      (if month.start <= target && (id, target) !in rows then rule.amount else 0)
      + NotYet(rows, id, rule, Next(rule, target), month)
  }

  /** A row before the target does not matter to what is still to come. */
  lemma {:induction false} EarlierRowsDoNotMatter(
      rows: RowTable, more: RowTable, id: Id, rule: Rule, target: Date, month: Month)
    requires forall date :: target <= date ==> ((id, date) in rows <==> (id, date) in more)
    ensures NotYet(rows, id, rule, target, month) == NotYet(more, id, rule, target, month)
    decreases month.end + 1 - target
  {
    hide NextGenerationDate, IsPastEnd;
    StepIsLater(rule.schedule, target);
    if target <= month.end && !IsPastEnd(rule, target) {
      EarlierRowsDoNotMatter(rows, more, id, rule, Next(rule, target), month);
    }
  }

  function InsertOne(rows: RowTable, id: Id, t: Transaction): RowTable {
    if (id, t.date) in rows then rows else rows[(id, t.date) := t]
  }

  /** Generating one date moves its amount from the one total to the other, or leaves both. */
  lemma GeneratingOneDateConserves(rows: RowTable, id: Id, rule: Rule, target: Date, month: Month)
    requires !IsPastEnd(rule, target)
    ensures var after := InsertOne(rows, id, OccurrenceOf(rule, id, target));
            Scheduled(after, month, rule.kind) + NotYet(after, id, rule, Next(rule, target), month)
            == Scheduled(rows, month, rule.kind) + NotYet(rows, id, rule, target, month)
  {
    hide NextGenerationDate, IsPastEnd;
    var t := OccurrenceOf(rule, id, target);
    var after := InsertOne(rows, id, t);
    StepIsLater(rule.schedule, target);
    EarlierRowsDoNotMatter(rows, after, id, rule, Next(rule, target), month);
    if (id, target) !in rows {
      ScheduledAdds(rows, (id, target), t, month, rule.kind);
    }
  }

  lemma {:induction false} EmittingConserves(rows: RowTable, id: Id, rule: Rule, target: Date, threshold: Date, cap: nat, month: Month)
    ensures var dates := Emit(rule, target, threshold, cap);
            var after := InsertIgnoring(rows, id, OccurrencesOf(rule, id, dates));
            Scheduled(after, month, rule.kind) + NotYet(after, id, rule, After(rule, target, dates), month)
            == Scheduled(rows, month, rule.kind) + NotYet(rows, id, rule, target, month)
    decreases cap
  {
    hide NextGenerationDate, IsPastEnd, IsAccepted, NotYet, Scheduled;
    var dates := Emit(rule, target, threshold, cap);
    if dates == [] {
      assert OccurrencesOf(rule, id, dates) == [];
    } else {
      var rest := Emit(rule, Next(rule, target), threshold, cap - 1);
      var after := InsertOne(rows, id, OccurrenceOf(rule, id, target));
      GeneratingOneDateConserves(rows, id, rule, target, month);
      EmittingConserves(after, id, rule, Next(rule, target), threshold, cap - 1, month);
      assert OccurrencesOf(rule, id, dates)[1..] == OccurrencesOf(rule, id, rest);
      assert OccurrencesOf(rule, id, dates)[0] == OccurrenceOf(rule, id, target);
      AfterTheFirst(rule, target, rest);
    }
  }

  lemma AfterTheFirst(rule: Rule, target: Date, rest: seq<Date>)
    ensures After(rule, target, [target] + rest) == After(rule, Next(rule, target), rest)
  {
    hide NextGenerationDate;
  }

  /** A run leaves rows of another type alone. */
  lemma {:induction false} OtherKindsConserve(rows: RowTable, id: Id, ts: seq<Transaction>, month: Month, kind: TransactionType)
    requires forall t :: t in ts ==> t.kind != kind
    ensures Scheduled(InsertIgnoring(rows, id, ts), month, kind) == Scheduled(rows, month, kind)
    decreases |ts|
  {
    hide Scheduled;
    if ts != [] {
      var after := InsertOne(rows, id, ts[0]);
      assert ts[0] in ts;
      if (id, ts[0].date) !in rows {
        ScheduledAdds(rows, (id, ts[0].date), ts[0], month, kind);
      }
      OtherKindsConserve(after, id, ts[1..], month, kind);
    }
  }

  // One rule, as the projection sees it.

  ghost function RuleShare(store: Store, id: Id, month: Month, kind: TransactionType): int
    requires id in store.rules
  {
    var rule := store.rules[id];
    if IsVisible(rule, month) && rule.kind == kind then NotYet(store.rows, id, rule, FirstTarget(rule), month) else 0
  }

  /** The filter on rules drops none that still has a date in the month. */
  lemma FilterLosesNothing(rows: RowTable, id: Id, rule: Rule, month: Month)
    requires rule.active && rule.kind != TRANSFER && HasStarted(rule) && !IsVisible(rule, month)
    ensures NotYet(rows, id, rule, FirstTarget(rule), month) == 0
  {
    hide NextGenerationDate;
    if rule.lastGenerated.Some? {
      StepIsLater(rule.schedule, rule.lastGenerated.value);
    }
    if rule.schedule.startDate <= month.end {
      EndsBeforeMonth(rows, id, rule, FirstTarget(rule), month);
    }
  }

  lemma {:induction false} EndsBeforeMonth(rows: RowTable, id: Id, rule: Rule, target: Date, month: Month)
    requires rule.endDate.Some? && rule.endDate.value < month.start
    ensures NotYet(rows, id, rule, target, month) == 0
    decreases month.end + 1 - target
  {
    hide NextGenerationDate;
    StepIsLater(rule.schedule, target);
    if target <= month.end && !IsPastEnd(rule, target) {
      EndsBeforeMonth(rows, id, rule, Next(rule, target), month);
    }
  }

  lemma {:induction false} EndLeavesNothing(rule: Rule, target: Date, threshold: Date, cap: nat)
    requires FindsEnd(rule, target, threshold, cap)
    ensures IsPastEnd(rule, After(rule, target, Emit(rule, target, threshold, cap)))
    decreases cap
  {
    hide NextGenerationDate, IsPastEnd, IsAccepted;
    if !IsPastEnd(rule, target) {
      EndLeavesNothing(rule, Next(rule, target), threshold, cap - 1);
      AfterTheFirst(rule, target, Emit(rule, Next(rule, target), threshold, cap - 1));
    }
  }

  lemma {:induction false} NotYetOfSameTerms(rows: RowTable, id: Id, a: Rule, b: Rule, target: Date, month: Month)
    requires SameTerms(a, b)
    ensures NotYet(rows, id, a, target, month) == NotYet(rows, id, b, target, month)
    decreases month.end + 1 - target
  {
    hide NextGenerationDate;
    StepIsLater(a.schedule, target);
    if target <= month.end && !IsPastEnd(a, target) {
      NotYetOfSameTerms(rows, id, a, b, Next(a, target), month);
    }
  }

  /** The part of a rule's run that shows in the projection: what it leaves to generate. */
  lemma GeneratedShare(rows: RowTable, id: Id, rule: Rule, threshold: Date, month: Month)
    requires rule.active && HasStarted(rule) && HasStarted(Generated(rule, threshold))
    ensures var next := Generated(rule, threshold);
            (if IsVisible(next, month) then NotYet(rows, id, next, FirstTarget(next), month) else 0)
            == if rule.kind == TRANSFER then 0 else NotYet(rows, id, rule, After(rule, FirstTarget(rule), Emitted(rule, threshold)), month)
  {
    hide Emit, FindsEnd, NotYet, HasStarted, FirstTarget, MaxGenerations;
    var next := Generated(rule, threshold);
    var cap := MaxGenerations(rule.schedule.frequency);
    NextTarget(rule, next, Emitted(rule, threshold));
    NotYetOfSameTerms(rows, id, next, rule, FirstTarget(next), month);
    if rule.kind != TRANSFER {
      if !next.active {
        EndLeavesNothing(rule, FirstTarget(rule), threshold, cap);
        PastEndIsNothing(rows, id, rule, FirstTarget(next), month);
      } else if !IsVisible(next, month) {
        FilterLosesNothing(rows, id, next, month);
      }
    }
  }

  lemma PastEndIsNothing(rows: RowTable, id: Id, rule: Rule, target: Date, month: Month)
    requires IsPastEnd(rule, target)
    ensures NotYet(rows, id, rule, target, month) == 0
  {
  }

  lemma GeneratedHasStarted(rule: Rule, threshold: Date)
    requires HasStarted(rule)
    ensures HasStarted(Generated(rule, threshold))
  {
    hide Full, FullFindsEnd, FirstTarget, MaxGenerations, Emit, FindsEnd, HasStarted;
    var target, cap := FirstTarget(rule), MaxGenerations(rule.schedule.frequency);
    CappedIsPrefix(rule, target, threshold, cap);
    var all := Full(rule, target, threshold);
    var n := if cap <= |all| then cap else |all|;
    assert all[..n] == Emitted(rule, threshold);
    FullRunHasStarted(rule, threshold, n);
    StartedWhateverActive(Generated(rule, threshold), rule.(lastGenerated := LastOf(all[..n], rule.lastGenerated)));
  }

  // The whole store.

  ghost function Shares(store: Store, month: Month, kind: TransactionType): map<Id, int> {
    map id | id in store.rules :: RuleShare(store, id, month, kind)
  }

  /** What the month expects from rules and their pending rows together. */
  ghost function Expected(store: Store, month: Month, kind: TransactionType): int {
    Scheduled(store.rows, month, kind) + Sum(Shares(store, month, kind))
  }

  predicate AllStarted(store: Store) {
    forall id :: id in store.rules ==> HasStarted(store.rules[id])
  }

  lemma OtherShares(store: Store, id: Id, after: Rule, ts: seq<Transaction>, other: Id, month: Month, kind: TransactionType)
    requires id in store.rules && other in store.rules && other != id
    ensures RuleShare(Persisted(store, id, after, ts), other, month, kind) == RuleShare(store, other, month, kind)
  {
    hide NotYet, FirstTarget, IsVisible;
    var next := Persisted(store, id, after, ts);
    forall date: Date
      ensures (other, date) in store.rows <==> (other, date) in next.rows
    {
      InsertsOnlyItsRule(store.rows, id, ts, (other, date));
    }
    var rule := store.rules[other];
    EarlierRowsDoNotMatter(store.rows, next.rows, other, rule, FirstTarget(rule), month);
  }

  lemma {:induction false} InsertsOnlyItsRule(rows: RowTable, id: Id, ts: seq<Transaction>, key: (Id, Date))
    requires key.0 != id
    ensures key in InsertIgnoring(rows, id, ts) <==> key in rows
    decreases |ts|
  {
    if ts != [] {
      InsertsOnlyItsRule(InsertOne(rows, id, ts[0]), id, ts[1..], key);
    }
  }

  lemma PersistedShareConserves(store: Store, id: Id, threshold: Date, month: Month, kind: TransactionType)
    requires id in store.rules && store.rules[id].active && HasStarted(store.rules[id]) && kind != TRANSFER
    ensures var rule := store.rules[id];
            var next := Persisted(store, id, Generated(rule, threshold), OccurrencesOf(rule, id, Emitted(rule, threshold)));
            Scheduled(next.rows, month, kind) + RuleShare(next, id, month, kind)
            == Scheduled(store.rows, month, kind) + RuleShare(store, id, month, kind)
  {
    hide Emit, FindsEnd, NotYet, HasStarted, FirstTarget, MaxGenerations, Scheduled, InsertIgnoring;
    var rule := store.rules[id];
    var ts := OccurrencesOf(rule, id, Emitted(rule, threshold));
    var next := Persisted(store, id, Generated(rule, threshold), ts);
    assert next.rules[id] == Generated(rule, threshold);
    GeneratedHasStarted(rule, threshold);
    if rule.kind == kind {
      GeneratedShare(next.rows, id, rule, threshold, month);
      EmittingConserves(store.rows, id, rule, FirstTarget(rule), threshold, MaxGenerations(rule.schedule.frequency), month);
      if !IsVisible(rule, month) {
        FilterLosesNothing(store.rows, id, rule, month);
      }
    } else {
      OtherKindsConserve(store.rows, id, ts, month, kind);
    }
  }

  /** Running one due rule changes neither the month's expected income nor its expected expense. */
  lemma GeneratingOneRuleConserves(store: Store, id: Id, threshold: Date, fails: Id -> bool, month: Month, kind: TransactionType)
    requires id in store.rules && store.rules[id].active && AllStarted(store) && kind != TRANSFER
    ensures Expected(GenerateOne(store, id, threshold, fails), month, kind) == Expected(store, month, kind)
    ensures AllStarted(GenerateOne(store, id, threshold, fails))
  {
    hide Emitted, RuleShare, Scheduled, OccurrencesOf, InsertIgnoring, Generated, Sum;
    var rule := store.rules[id];
    var ts, after := OccurrencesOf(rule, id, Emitted(rule, threshold)), Generated(rule, threshold);
    var next := GenerateOne(store, id, threshold, fails);
    if next != store {
      PersistedShareConserves(store, id, threshold, month, kind);
      forall other | other in store.rules && other != id
        ensures RuleShare(next, other, month, kind) == RuleShare(store, other, month, kind)
      {
        OtherShares(store, id, after, ts, other, month, kind);
      }
      SharesReplaced(store, next, id, month, kind);
      PersistedRule(store, id, threshold);
      GeneratedHasStarted(rule, threshold);
    }
  }

  lemma SharesReplaced(store: Store, next: Store, id: Id, month: Month, kind: TransactionType)
    requires id in store.rules && next.rules.Keys == store.rules.Keys
    requires forall other :: other in store.rules && other != id ==> RuleShare(next, other, month, kind) == RuleShare(store, other, month, kind)
    ensures Sum(Shares(next, month, kind))
         == Sum(Shares(store, month, kind)) - RuleShare(store, id, month, kind) + RuleShare(next, id, month, kind)
  {
    hide RuleShare, Sum;
    SumReplaces(Shares(store, month, kind), id, RuleShare(next, id, month, kind));
    assert Shares(next, month, kind) == Shares(store, month, kind)[id := RuleShare(next, id, month, kind)];
  }

  lemma PersistedRule(store: Store, id: Id, threshold: Date)
    requires id in store.rules
    ensures var rule := store.rules[id];
            Persisted(store, id, Generated(rule, threshold), OccurrencesOf(rule, id, Emitted(rule, threshold))).rules
            == store.rules[id := Generated(rule, threshold)]
  {
    hide Emitted, FindsEnd, InsertIgnoring;
  }

  /**
   A run of the generator over any rules, to any threshold, with or without failures and caps,
   leaves the month's scheduled plus not-yet-generated totals as they were: what it inserts as
   pending is exactly what the projection stops counting.
   */
  lemma {:induction false} GeneratorRunsConserve(
      store: Store, ids: seq<Id>, threshold: Date, fails: Id -> bool, month: Month, kind: TransactionType)
    requires forall id :: id in ids ==> id in store.rules && store.rules[id].active
    requires forall i, j :: 0 <= i < j < |ids| ==> ids[i] != ids[j]
    requires AllStarted(store) && kind != TRANSFER
    ensures Expected(GenerateEach(store, ids, threshold, fails), month, kind) == Expected(store, month, kind)
    ensures AllStarted(GenerateEach(store, ids, threshold, fails))
    decreases |ids|
  {
    hide GenerateOne, Expected, AllStarted;
    if ids != [] {
      var rest, id := ids[..|ids| - 1], ids[|ids| - 1];
      GeneratorRunsConserve(store, rest, threshold, fails, month, kind);
      EachTouchesItsRule(store, rest, threshold, fails, id);
      GeneratingOneRuleConserves(GenerateEach(store, rest, threshold, fails), id, threshold, fails, month, kind);
    }
  }

  // The loop of the projection computes these shares.

  /** The walk is over at a date past the month or past the end of the rule. */
  predicate StopsAt(rule: Rule, date: Date, month: Month) {
    date > month.end || IsPastEnd(rule, date)
  }

  /** The dates of a rule from a target on. */
  function From(rule: Rule, target: Date, k: nat): Date {
    Chain(rule.schedule.(startDate := target), k)
  }

  /** The projection's loop is not cut short by its own limit on steps. */
  predicate WithinSteps(rule: Rule, month: Month) {
    StopsAt(rule, From(rule, FirstTarget(rule), MAX_OCCURRENCE_STEPS), month)
  }

  /** That is so for every rule the projection walks. */
  predicate AllWithinSteps(store: Store, month: Month) {
    forall id :: id in store.rules && IsVisible(store.rules[id], month) ==> WithinSteps(store.rules[id], month)
  }

  lemma {:induction false} WalkIsNotYet(rows: RowTable, id: Id, rule: Rule, target: Date, month: Month, steps: nat)
    requires StopsAt(rule, From(rule, target, steps), month)
    ensures PendingTotal(Walk(rule, target, month.end, steps), RuleSnapshot(rule, MaterializedDates(rows, id, month)), month)
         == NotYet(rows, id, rule, target, month)
    decreases steps
  {
    hide NextGenerationDate, IsPastEnd;
    if steps > 0 && target <= month.end && !IsPastEnd(rule, target) {
      ShiftedChain(rule.schedule, target, steps - 1);
      WalkIsNotYet(rows, id, rule, Next(rule, target), month, steps - 1);
      assert (id, target) in rows && month.start <= target <==> target in MaterializedDates(rows, id, month);
    }
  }

  lemma {:induction false} ShiftedChain(s: Schedule, target: Date, k: nat)
    ensures Chain(s.(startDate := NextGenerationDate(s, target)), k) == Chain(s.(startDate := target), k + 1)
  {
    hide NextGenerationDate;
    var here, there := s.(startDate := target), s.(startDate := NextGenerationDate(s, target));
    StepIgnoresStart(s, here, Chain(here, k));
    if k > 0 {
      ShiftedChain(s, target, k - 1);
      StepIgnoresStart(here, there, Chain(here, k));
    } else {
      StepIgnoresStart(s, here, target);
    }
  }

  lemma StepIgnoresStart(a: Schedule, b: Schedule, date: Date)
    requires a.frequency == b.frequency && a.interval == b.interval
    ensures NextGenerationDate(a, date) == NextGenerationDate(b, date)
  {
  }

  /** The sum taken from the front. */
  function PendingTotal(dates: seq<Date>, snapshot: RuleSnapshot, month: Month): int {
    if dates == [] then 0
    else PendingPart(dates[0], snapshot, month) + PendingTotal(dates[1..], snapshot, month)
  }

  lemma {:induction false} SumsFromEitherEnd(dates: seq<Date>, snapshot: RuleSnapshot, month: Month)
    ensures PendingTotal(dates, snapshot, month) == PendingSum(dates, snapshot, month)
    decreases |dates|
  {
    hide PendingPart;
    if |dates| > 1 {
      var n := |dates| - 1;
      SumsFromEitherEnd(dates[1..], snapshot, month);
      SumsFromEitherEnd(dates[..n], snapshot, month);
      SumsFromEitherEnd(dates[1..n], snapshot, month);
      assert dates[1..][..n - 1] == dates[1..n] == dates[..n][1..];
    }
  }

  lemma RuleSumIsShare(store: Store, id: Id, month: Month, kind: TransactionType)
    requires id in store.rules && IsVisible(store.rules[id], month) && WithinSteps(store.rules[id], month)
    ensures RuleShare(store, id, month, kind)
         == if store.rules[id].kind == kind then RuleSum(RuleSnapshot(store.rules[id], MaterializedDates(store.rows, id, month)), month) else 0
  {
    hide NotYet, Walk, FirstTarget, PendingTotal, PendingSum, MaterializedDates, StopsAt, From;
    var rule := store.rules[id];
    WalkIsNotYet(store.rows, id, rule, FirstTarget(rule), month, MAX_OCCURRENCE_STEPS);
    SumsFromEitherEnd(Walk(rule, FirstTarget(rule), month.end, MAX_OCCURRENCE_STEPS),
                      RuleSnapshot(rule, MaterializedDates(store.rows, id, month)), month);
  }

  lemma ShareOfRule(store: Store, id: Id, month: Month, kind: TransactionType)
    requires id in store.rules
    ensures id in Shares(store, month, kind) && Shares(store, month, kind)[id] == RuleShare(store, id, month, kind)
  {
  }

  lemma {:induction false} TotalIsSeqSum(store: Store, ids: seq<Id>, month: Month, kind: TransactionType)
    requires forall id :: id in ids ==> id in store.rules && IsVisible(store.rules[id], month) && WithinSteps(store.rules[id], month)
    ensures TotalOf(SnapshotsOf(store, ids, month), month, kind)
         == SeqSum(seq(|ids|, i requires 0 <= i < |ids| => Shares(store, month, kind)[ids[i]]))
    decreases |ids|
  {
    hide RuleShare, RuleSum, IsVisible, WithinSteps, MaterializedDates;
    var values := seq(|ids|, i requires 0 <= i < |ids| => Shares(store, month, kind)[ids[i]]);
    if ids != [] {
      var rest := ids[1..];
      TotalIsSeqSum(store, rest, month, kind);
      assert ids[0] in ids;
      RuleSumIsShare(store, ids[0], month, kind);
      var snapshots := SnapshotsOf(store, ids, month);
      assert snapshots[1..] == SnapshotsOf(store, rest, month);
      assert snapshots[0] == RuleSnapshot(store.rules[ids[0]], MaterializedDates(store.rows, ids[0], month));
      ShareOfRule(store, ids[0], month, kind);
      assert values[0] == Shares(store, month, kind)[ids[0]];
      assert values[1..] == seq(|rest|, i requires 0 <= i < |rest| => Shares(store, month, kind)[rest[i]]);
    }
  }

  /** The totals the projection adds to a month are the shares the conservation law speaks of. */
  lemma ProjectionComputesShares(store: Store, month: Month, kind: TransactionType)
    requires AllWithinSteps(store, month)
    ensures TotalOf(FindActiveRecurringRules(store, month), month, kind) == Sum(Shares(store, month, kind))
  {
    hide RuleShare, TotalOf, WithinSteps, SeqSum, Sum;
    var ids, visible := Ascending(VisibleIds(store, month)), VisibleIds(store, month);
    TotalIsSeqSum(store, ids, month, kind);
    var m := Restricted(Shares(store, month, kind), visible);
    SumOverListing(m, ids);
    assert seq(|ids|, i requires 0 <= i < |ids| => Shares(store, month, kind)[ids[i]])
        == seq(|ids|, i requires 0 <= i < |ids| => m[ids[i]]);
    forall id | id in store.rules && id !in visible
      ensures Shares(store, month, kind)[id] == 0
    {
      HiddenShareIsZero(store, id, month, kind);
    }
    SumOfSupport(Shares(store, month, kind), visible);
  }

  lemma HiddenShareIsZero(store: Store, id: Id, month: Month, kind: TransactionType)
    requires id in store.rules && !IsVisible(store.rules[id], month)
    ensures RuleShare(store, id, month, kind) == 0
  {
  }

  // A run never takes a rule out of the limit.

  lemma {:induction false} EmittingMovesAlong(rule: Rule, target: Date, threshold: Date, cap: nat)
    ensures After(rule, target, Emit(rule, target, threshold, cap)) == From(rule, target, |Emit(rule, target, threshold, cap)|)
    decreases cap
  {
    hide NextGenerationDate, IsPastEnd, IsAccepted;
    var dates := Emit(rule, target, threshold, cap);
    if dates != [] {
      var rest := Emit(rule, Next(rule, target), threshold, cap - 1);
      EmittingMovesAlong(rule, Next(rule, target), threshold, cap - 1);
      AfterTheFirst(rule, target, rest);
      ShiftedChain(rule.schedule, target, |rest|);
    }
  }

  lemma {:induction false} FromFurther(rule: Rule, target: Date, n: nat, k: nat)
    ensures From(rule, From(rule, target, n), k) == From(rule, target, n + k)
    decreases n
  {
    hide NextGenerationDate;
    if n > 0 {
      var next := NextGenerationDate(rule.schedule, target);
      ShiftedChain(rule.schedule, target, n - 1);
      FromFurther(rule, next, n - 1, k);
      ShiftedChain(rule.schedule, target, n - 1 + k);
    }
  }

  lemma StopsLater(rule: Rule, early: Date, late: Date, month: Month)
    requires StopsAt(rule, early, month) && early <= late
    ensures StopsAt(rule, late, month)
  {
  }

  lemma GeneratedStaysWithinSteps(rule: Rule, threshold: Date, month: Month)
    requires WithinSteps(rule, month)
    ensures WithinSteps(Generated(rule, threshold), month)
  {
    hide Emit, FindsEnd, FirstTarget, MaxGenerations, Chain, NextGenerationDate, StopsAt;
    var target, next := FirstTarget(rule), Generated(rule, threshold);
    var dates := Emitted(rule, threshold);
    NextTarget(rule, next, dates);
    EmittingMovesAlong(rule, target, threshold, MaxGenerations(rule.schedule.frequency));
    FromFurther(rule, target, |dates|, MAX_OCCURRENCE_STEPS);
    ChainIsInjective(rule.schedule.(startDate := target), MAX_OCCURRENCE_STEPS, |dates| + MAX_OCCURRENCE_STEPS);
    ChainIsInjective(rule.schedule.(startDate := target), |dates| + MAX_OCCURRENCE_STEPS, MAX_OCCURRENCE_STEPS);
    StopsLater(rule, From(rule, target, MAX_OCCURRENCE_STEPS), From(next, FirstTarget(next), MAX_OCCURRENCE_STEPS), month);
    StopsBySameTerms(rule, next, From(next, FirstTarget(next), MAX_OCCURRENCE_STEPS), month);
  }

  lemma StopsBySameTerms(a: Rule, b: Rule, date: Date, month: Month)
    requires SameTerms(a, b)
    ensures StopsAt(a, date, month) == StopsAt(b, date, month)
  {
  }

  lemma OneRunStaysWithinSteps(store: Store, id: Id, threshold: Date, fails: Id -> bool, month: Month)
    requires id in store.rules && store.rules[id].active && AllWithinSteps(store, month)
    ensures AllWithinSteps(GenerateOne(store, id, threshold, fails), month)
  {
    hide Emitted, WithinSteps, OccurrencesOf, InsertIgnoring, FindsEnd, FirstTarget;
    var rule, next := store.rules[id], GenerateOne(store, id, threshold, fails);
    if next != store {
      PersistedRule(store, id, threshold);
      if IsVisible(rule, month) {
        GeneratedStaysWithinSteps(rule, threshold, month);
      }
    }
  }

  lemma {:induction false} RunsStayWithinSteps(store: Store, ids: seq<Id>, threshold: Date, fails: Id -> bool, month: Month)
    requires forall id :: id in ids ==> id in store.rules && store.rules[id].active
    requires forall i, j :: 0 <= i < j < |ids| ==> ids[i] != ids[j]
    requires AllWithinSteps(store, month)
    ensures AllWithinSteps(GenerateEach(store, ids, threshold, fails), month)
    decreases |ids|
  {
    hide GenerateOne, AllWithinSteps;
    if ids != [] {
      var rest, id := ids[..|ids| - 1], ids[|ids| - 1];
      RunsStayWithinSteps(store, rest, threshold, fails, month);
      EachTouchesItsRule(store, rest, threshold, fails, id);
      OneRunStaysWithinSteps(GenerateEach(store, rest, threshold, fails), id, threshold, fails, month);
    }
  }

  /** Put together: running the whole job leaves what the projection reports for the month. */
  lemma JobLeavesTheProjection(store: Store, threshold: Date, fails: Id -> bool, month: Month, kind: TransactionType)
    requires AllStarted(store) && AllWithinSteps(store, month) && kind != TRANSFER
    ensures var next := GenerateEach(store, Ascending(DueIds(store.rules, threshold)), threshold, fails);
            Scheduled(next.rows, month, kind) + TotalOf(FindActiveRecurringRules(next, month), month, kind)
            == Scheduled(store.rows, month, kind) + TotalOf(FindActiveRecurringRules(store, month), month, kind)
  {
    hide AllStarted, AllWithinSteps, TotalOf, Scheduled, Shares, GenerateEach, FindActiveRecurringRules;
    var ids := Ascending(DueIds(store.rules, threshold));
    GeneratorRunsConserve(store, ids, threshold, fails, month, kind);
    RunsStayWithinSteps(store, ids, threshold, fails, month);
    ProjectionComputesShares(store, month, kind);
    ProjectionComputesShares(GenerateEach(store, ids, threshold, fails), month, kind);
  }
}
