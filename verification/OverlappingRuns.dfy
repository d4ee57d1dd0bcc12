/** Generator runs that overlap, each working from the snapshot of a rule it once loaded. */
module OverlappingRuns {
  import opened Results
  import opened Collections
  import opened CivilCalendar
  import opened Transactions
  import opened Recurrence
  import opened Generation
  import opened GenerationRuns
  import opened RecurringRepository

  datatype Worker = Worker(id: Id, rule: Rule, threshold: Date)

  datatype Workshop = Workshop(store: Store, workers: map<nat, Worker>)

  datatype WorkshopStep = Load(w: nat, id: Id, threshold: Date) | Persist(w: nat) | Drop(w: nat)

  predicate CanStep(s: Workshop, step: WorkshopStep) {
    match step
    case Load(w, id, threshold) => w !in s.workers && id in s.store.rules && IsListed(s.store.rules[id], threshold)
    case Persist(w) => w in s.workers
    case Drop(w) => w in s.workers
  }

  /** The write of a run that started from an earlier snapshot. */
  function PersistRun(store: Store, worker: Worker): Store {
    Persisted(store, worker.id, Generated(worker.rule, worker.threshold),
              OccurrencesOf(worker.rule, worker.id, Emitted(worker.rule, worker.threshold)))
  }

  function Stepped(s: Workshop, step: WorkshopStep): Workshop
    requires CanStep(s, step)
  {
    match step
    case Load(w, id, threshold) => s.(workers := s.workers[w := Worker(id, s.store.rules[id], threshold)])
    case Persist(w) => Workshop(PersistRun(s.store, s.workers[w]), s.workers - {w})
    case Drop(w) => s.(workers := s.workers - {w})
  }

  // What the rows of one rule may be.

  /** The rule stands before the k-th date of its chain. */
  predicate Reached(rule: Rule, k: nat) {
    if k == 0 then rule.lastGenerated.None? else rule.lastGenerated == Some(Chain(rule.schedule, k - 1))
  }

  /** How far a rule says it has come is covered by rows; an inactive rule has no date left. */
  ghost predicate IsAccounted(rows: RowTable, id: Id, rule: Rule) {
    exists k: nat :: AccountsFor(rows, id, rule, k)
  }

  ghost predicate AccountsFor(rows: RowTable, id: Id, rule: Rule, k: nat) {
    && Reached(rule, k)
    && (forall i: nat :: i < k ==> (id, Chain(rule.schedule, i)) in rows)
    && (!rule.active ==> IsPastEnd(rule, Chain(rule.schedule, k)))
  }

  /** A row may only be an occurrence of the rule, or the one it was created with. */
  predicate IsOwnRow(rule: Rule, id: Id, first: Option<Transaction>, date: Date, row: Transaction, i: nat) {
    && date == Chain(rule.schedule, i) && !IsPastEnd(rule, date)
    && row == if i == 0 && first.Some? then first.value else OccurrenceOf(rule, id, date)
  }

  ghost predicate RowsAreOwn(rows: RowTable, id: Id, rule: Rule, first: Option<Transaction>, bound: Date) {
    && (forall date :: (id, date) in rows ==> date <= bound && exists i: nat :: IsOwnRow(rule, id, first, date, rows[(id, date)], i))
    && (first.Some? ==> (id, rule.schedule.startDate) in rows)
  }

  ghost predicate RuleInvariant(store: Store, id: Id, terms: Rule, first: Option<Transaction>, bound: Date) {
    && id in store.rules && SameTerms(store.rules[id], terms) && IsAccepted(terms)
    && IsAccounted(store.rows, id, store.rules[id])
    && RowsAreOwn(store.rows, id, terms, first, bound)
  }

  ghost predicate WorkersAreStale(s: Workshop, id: Id, terms: Rule, bound: Date) {
    forall w :: w in s.workers && s.workers[w].id == id ==>
      SameTerms(s.workers[w].rule, terms) && IsAccounted(s.store.rows, id, s.workers[w].rule) && s.workers[w].threshold <= bound
  }

  ghost predicate Inv(s: Workshop, id: Id, terms: Rule, first: Option<Transaction>, bound: Date) {
    RuleInvariant(s.store, id, terms, first, bound) && WorkersAreStale(s, id, terms, bound)
  }

  // Inserting.

  lemma {:induction false} InsertedRows(rows: RowTable, id: Id, ts: seq<Transaction>, key: (Id, Date))
    ensures key in InsertIgnoring(rows, id, ts)
            <==> key in rows || (key.0 == id && exists i :: 0 <= i < |ts| && ts[i].date == key.1)
    ensures key in InsertIgnoring(rows, id, ts) && key !in rows ==>
              exists i :: 0 <= i < |ts| && ts[i].date == key.1 && InsertIgnoring(rows, id, ts)[key] == ts[i]
    decreases |ts|
  {
    if ts != [] {
      var next := if (id, ts[0].date) in rows then rows else rows[(id, ts[0].date) := ts[0]];
      InsertedRows(next, id, ts[1..], key);
      if exists i :: 0 <= i < |ts| && ts[i].date == key.1 {
        var i :| 0 <= i < |ts| && ts[i].date == key.1;
        if i > 0 { assert ts[1..][i - 1] == ts[i]; }
      }
    }
  }

  lemma {:induction false} InsertSkipsOthers(rows: RowTable, id: Id, ts: seq<Transaction>, other: Id, date: Date)
    requires other != id
    ensures (other, date) in InsertIgnoring(rows, id, ts) <==> (other, date) in rows
  {
    InsertedRows(rows, id, ts, (other, date));
  }

  lemma MoreRowsAccount(rows: RowTable, more: RowTable, id: Id, rule: Rule)
    requires IsAccounted(rows, id, rule) && forall key :: key in rows ==> key in more
    ensures IsAccounted(more, id, rule)
  {
    hide Reached, IsPastEnd;
    var k: nat :| AccountsFor(rows, id, rule, k);
    assert AccountsFor(more, id, rule, k);
  }

  lemma ReachedTarget(rule: Rule, k: nat)
    requires Reached(rule, k)
    ensures FirstTarget(rule) == Chain(rule.schedule, k)
  {
  }

  /** What a run from a snapshot emits: the next dates of the chain, none past the end. */
  lemma EmittedIsChain(rule: Rule, k: nat, threshold: Date, i: nat)
    requires Reached(rule, k) && IsAccepted(rule) && i < |Emitted(rule, threshold)|
    ensures Emitted(rule, threshold)[i] == Chain(rule.schedule, k + i)
    ensures Chain(rule.schedule, k + i) <= threshold && !IsPastEnd(rule, Chain(rule.schedule, k + i))
  {
    hide Emit, Full, FindsEnd, FullFindsEnd, Reached, FirstTarget, Chain, MaxGenerations, IsAccepted, IsPastEnd;
    ReachedTarget(rule, k);
    CappedIsPrefix(rule, FirstTarget(rule), threshold, MaxGenerations(rule.schedule.frequency));
    FullFollowsTheChain(rule, k, i, threshold);
    FullMissesNothing(rule, k, i, threshold);
  }

  /** After it the rule stands further along its chain. */
  lemma GeneratedReaches(rule: Rule, k: nat, threshold: Date)
    requires Reached(rule, k) && IsAccepted(rule) && (!rule.active ==> IsPastEnd(rule, Chain(rule.schedule, k)))
    ensures var n := |Emitted(rule, threshold)|;
            && Reached(Generated(rule, threshold), k + n)
            && (!Generated(rule, threshold).active ==> IsPastEnd(rule, Chain(rule.schedule, k + n)))
  {
    hide Emit, Full, FindsEnd, FullFindsEnd, FirstTarget, Chain, MaxGenerations, IsAccepted, IsPastEnd;
    ReachedTarget(rule, k);
    var cap := MaxGenerations(rule.schedule.frequency);
    CappedIsPrefix(rule, FirstTarget(rule), threshold, cap);
    var n := |Emitted(rule, threshold)|;
    if n > 0 {
      EmittedIsChain(rule, k, threshold, n - 1);
      if !rule.active { EmittedIsChain(rule, k, threshold, 0); }
    }
    if FindsEnd(rule, FirstTarget(rule), threshold, cap) {
      EndIsFoundPastTheChain(rule, k, threshold);
    }
  }

  lemma PersistAccounts(store: Store, worker: Worker)
    requires worker.id in store.rules && SameTerms(worker.rule, store.rules[worker.id]) && IsAccepted(worker.rule)
    requires IsAccounted(store.rows, worker.id, worker.rule)
    ensures IsAccounted(PersistRun(store, worker).rows, worker.id, PersistRun(store, worker).rules[worker.id])
  {
    hide Emitted, Generated, Reached, IsAccepted, IsPastEnd;
    var id, rule, dates := worker.id, worker.rule, Emitted(worker.rule, worker.threshold);
    var next := PersistRun(store, worker);
    var k: nat :| AccountsFor(store.rows, id, rule, k);
    GeneratedReaches(rule, k, worker.threshold);
    RowsReachFurther(store, worker, k);
    GeneratedIsSameTerms(rule, worker.threshold);
    TermsDecide(next.rules[id], rule, id, Chain(rule.schedule, k + |dates|));
    ProgressDecides(next.rules[id], Generated(rule, worker.threshold), k + |dates|);
    assert AccountsFor(next.rows, id, next.rules[id], k + |dates|);
  }

  lemma GeneratedIsSameTerms(rule: Rule, threshold: Date)
    ensures SameTerms(Generated(rule, threshold), rule)
  {
  }

  lemma ProgressDecides(a: Rule, b: Rule, k: nat)
    requires SameTerms(a, b) && a.lastGenerated == b.lastGenerated
    ensures Reached(a, k) <==> Reached(b, k)
  {
  }

  lemma TermsDecide(a: Rule, b: Rule, id: Id, date: Date)
    requires SameTerms(a, b)
    ensures OccurrenceOf(a, id, date) == OccurrenceOf(b, id, date)
    ensures IsAccepted(a) == IsAccepted(b) && IsPastEnd(a, date) == IsPastEnd(b, date)
  {
  }

  lemma PersistKeepsRowsOwn(store: Store, worker: Worker, terms: Rule, first: Option<Transaction>, bound: Date)
    requires SameTerms(worker.rule, terms) && IsAccepted(terms) && worker.threshold <= bound
    requires IsAccounted(store.rows, worker.id, worker.rule)
    requires RowsAreOwn(store.rows, worker.id, terms, first, bound)
    ensures RowsAreOwn(PersistRun(store, worker).rows, worker.id, terms, first, bound)
  {
    hide Emitted, Generated, Reached, IsAccepted, IsPastEnd, Created;
    var id, rule, dates := worker.id, worker.rule, Emitted(worker.rule, worker.threshold);
    var k: nat :| AccountsFor(store.rows, id, rule, k);
    var rows, ts := PersistRun(store, worker).rows, OccurrencesOf(rule, id, dates);
    forall date | (id, date) in rows
      ensures date <= bound && exists i: nat :: IsOwnRow(terms, id, first, date, rows[(id, date)], i)
    {
      if (id, date) in store.rows {
        var i: nat :| IsOwnRow(terms, id, first, date, store.rows[(id, date)], i);
        assert IsOwnRow(terms, id, first, date, rows[(id, date)], i);
      } else {
        InsertedRows(store.rows, id, ts, (id, date));
        var j :| 0 <= j < |ts| && ts[j].date == date && rows[(id, date)] == ts[j];
        TermsDecide(rule, terms, id, date);
        EmittedIsChain(rule, k, worker.threshold, j);
        assert Chain(terms.schedule, 0) == terms.schedule.startDate;
        assert IsOwnRow(terms, id, first, date, rows[(id, date)], k + j);
      }
    }
  }

  lemma OtherRuleIsLeftAlone(store: Store, worker: Worker, id: Id, terms: Rule, first: Option<Transaction>, bound: Date)
    requires worker.id != id && RuleInvariant(store, id, terms, first, bound)
    ensures RuleInvariant(PersistRun(store, worker), id, terms, first, bound)
  {
    hide Emitted, Generated, IsAccepted, IsPastEnd, IsOwnRow, SameTerms;
    var next := PersistRun(store, worker);
    MoreRowsAccount(store.rows, next.rows, id, store.rules[id]);
    var ts := OccurrencesOf(worker.rule, worker.id, Emitted(worker.rule, worker.threshold));
    forall date | (id, date) in next.rows
      ensures (id, date) in store.rows && next.rows[(id, date)] == store.rows[(id, date)]
    {
      InsertSkipsOthers(store.rows, worker.id, ts, id, date);
    }
  }

  lemma PersistKeepsRule(s: Workshop, w: nat, id: Id, terms: Rule, first: Option<Transaction>, bound: Date)
    requires Inv(s, id, terms, first, bound) && w in s.workers
    ensures RuleInvariant(PersistRun(s.store, s.workers[w]), id, terms, first, bound)
  {
    hide Emitted, Generated, IsAccepted, IsAccounted, RowsAreOwn;
    var worker := s.workers[w];
    if worker.id != id {
      OtherRuleIsLeftAlone(s.store, worker, id, terms, first, bound);
    } else {
      TermsDecide(worker.rule, terms, id, 0);
      PersistAccounts(s.store, worker);
      PersistKeepsRowsOwn(s.store, worker, terms, first, bound);
    }
  }

  /** However runs overlap, a rule's rows stay its own dates and its progress stays covered by them. */
  lemma StepKeepsInv(s: Workshop, step: WorkshopStep, id: Id, terms: Rule, first: Option<Transaction>, bound: Date)
    requires Inv(s, id, terms, first, bound) && CanStep(s, step)
    requires step.Load? ==> step.threshold <= bound
    ensures Inv(Stepped(s, step), id, terms, first, bound)
  {
    hide IsAccounted, RowsAreOwn, IsAccepted, IsListed;
    match step
    case Load(_, _, _) =>
    case Drop(_) =>
    case Persist(w) =>
      PersistKeepsRule(s, w, id, terms, first, bound);
      var next := Stepped(s, step);
      forall v | v in next.workers && next.workers[v].id == id
        ensures IsAccounted(next.store.rows, id, next.workers[v].rule)
      {
        MoreRowsAccount(s.store.rows, next.store.rows, id, s.workers[v].rule);
      }
  }

  ghost predicate IsTrace(states: seq<Workshop>, steps: seq<WorkshopStep>, bound: Date) {
    && |states| == |steps| + 1
    && forall i :: 0 <= i < |steps| ==>
         && CanStep(states[i], steps[i]) && states[i + 1] == Stepped(states[i], steps[i])
         && (steps[i].Load? ==> steps[i].threshold <= bound)
  }

  lemma {:induction false} OverlappingRunsKeepInv(
      states: seq<Workshop>, steps: seq<WorkshopStep>, id: Id, terms: Rule, first: Option<Transaction>, bound: Date)
    requires IsTrace(states, steps, bound) && Inv(states[0], id, terms, first, bound)
    ensures Inv(states[|steps|], id, terms, first, bound)
    decreases |steps|
  {
    hide Inv, CanStep, Stepped;
    if steps != [] {
      var n := |steps| - 1;
      OverlappingRunsKeepInv(states[..n + 1], steps[..n], id, terms, first, bound);
      StepKeepsInv(states[n], steps[n], id, terms, first, bound);
    }
  }

  // Then a run that meets no cap.

  /** The date belongs to the rule by the threshold. */
  predicate IsDueDate(rule: Rule, i: nat, threshold: Date) {
    Chain(rule.schedule, i) <= threshold && !IsPastEnd(rule, Chain(rule.schedule, i))
  }

  /** Each date of the chain up to the threshold and the end has its one row, and there is no other row. */
  ghost predicate IsComplete(rows: RowTable, id: Id, rule: Rule, threshold: Date) {
    && (forall i: nat :: IsDueDate(rule, i, threshold) ==> (id, Chain(rule.schedule, i)) in rows)
    && (forall date :: (id, date) in rows ==> exists i: nat :: date == Chain(rule.schedule, i) && IsDueDate(rule, i, threshold))
  }

  function FinalStore(store: Store, id: Id, threshold: Date): Store
    requires id in store.rules
  {
    if IsListed(store.rules[id], threshold) then PersistRun(store, Worker(id, store.rules[id], threshold)) else store
  }

  lemma DueDatesBeforeProgress(rule: Rule, k: nat, i: nat, threshold: Date)
    requires IsDueDate(rule, i, threshold) && !IsDueDate(rule, k, threshold)
    ensures i < k
  {
    ChainIsInjective(rule.schedule, k, i);
  }

  lemma ReachedHasStarted(rule: Rule, k: nat)
    requires Reached(rule, k)
    ensures HasStarted(rule)
  {
    if k > 1 { ChainIncreases(rule.schedule, 0, k - 1); }
  }

  lemma RunLeavesNothing(rule: Rule, k: nat, threshold: Date)
    requires Reached(rule, k) && IsAccepted(rule)
    requires |Full(rule, FirstTarget(rule), threshold)| < MaxGenerations(rule.schedule.frequency)
    ensures !IsDueDate(rule, k + |Emitted(rule, threshold)|, threshold)
  {
    hide Emit, Full, FindsEnd, FullFindsEnd, Reached, FirstTarget, Chain, MaxGenerations, IsAccepted;
    ReachedTarget(rule, k);
    CappedIsPrefix(rule, FirstTarget(rule), threshold, MaxGenerations(rule.schedule.frequency));
    FullMissesNothing(rule, k, |Emitted(rule, threshold)|, threshold);
  }

  lemma UnlistedLeavesNothing(rule: Rule, k: nat, threshold: Date)
    requires Reached(rule, k) && IsAccepted(rule) && !IsListed(rule, threshold)
    requires !rule.active ==> IsPastEnd(rule, Chain(rule.schedule, k))
    ensures !IsDueDate(rule, k, threshold)
  {
    hide Emit, FindsEnd, FirstTarget, Chain, MaxGenerations, IsAccepted, NextGenerationDate, IsListed;
    if rule.active {
      ReachedHasStarted(rule, k);
      UnlistedHasNothing(rule, threshold);
      ReachedTarget(rule, k);
      FullMissesNothing(rule, k, 0, threshold);
    }
  }

  /**
   Whatever overlapping and stale runs did before, one more run below the cap leaves exactly one
   row for each date of the rule's chain up to its threshold and the end date.
   */
  lemma FinalRunCompletes(store: Store, id: Id, first: Option<Transaction>, threshold: Date)
    requires id in store.rules && RuleInvariant(store, id, store.rules[id], first, threshold)
    requires |Full(store.rules[id], FirstTarget(store.rules[id]), threshold)| < MaxGenerations(store.rules[id].schedule.frequency)
    ensures IsComplete(FinalStore(store, id, threshold).rows, id, store.rules[id], threshold)
  {
    hide Emitted, FirstTarget, MaxGenerations, IsListed, IsAccepted, RowsAreOwn, Reached, Generated, IsPastEnd, IsDueDate;
    var rule := store.rules[id];
    var k: nat :| AccountsFor(store.rows, id, rule, k);
    if IsListed(rule, threshold) {
      var worker := Worker(id, rule, threshold);
      var next := PersistRun(store, worker);
      PersistKeepsRowsOwn(store, worker, rule, first, threshold);
      RunLeavesNothing(rule, k, threshold);
      RowsReachFurther(store, worker, k);
      NothingAfterIsComplete(next.rows, id, rule, k + |Emitted(rule, threshold)|, first, threshold);
    } else {
      UnlistedLeavesNothing(rule, k, threshold);
      NothingAfterIsComplete(store.rows, id, rule, k, first, threshold);
    }
  }

  lemma RowsReachFurther(store: Store, worker: Worker, k: nat)
    requires AccountsFor(store.rows, worker.id, worker.rule, k) && IsAccepted(worker.rule)
    ensures forall i: nat :: i < k + |Emitted(worker.rule, worker.threshold)| ==>
              (worker.id, Chain(worker.rule.schedule, i)) in PersistRun(store, worker).rows
  {
    hide Emitted, Generated, Reached, IsAccepted, IsPastEnd;
    var id, rule, dates := worker.id, worker.rule, Emitted(worker.rule, worker.threshold);
    forall i: nat | k <= i < k + |dates|
      ensures (id, Chain(rule.schedule, i)) in PersistRun(store, worker).rows
    {
      EmittedIsChain(rule, k, worker.threshold, i - k);
      InsertedRows(store.rows, id, OccurrencesOf(rule, id, dates), (id, Chain(rule.schedule, i)));
      assert OccurrencesOf(rule, id, dates)[i - k].date == Chain(rule.schedule, i);
    }
  }

  lemma NothingAfterIsComplete(rows: RowTable, id: Id, rule: Rule, k: nat, first: Option<Transaction>, threshold: Date)
    requires forall i: nat :: i < k ==> (id, Chain(rule.schedule, i)) in rows
    requires RowsAreOwn(rows, id, rule, first, threshold) && !IsDueDate(rule, k, threshold)
    ensures IsComplete(rows, id, rule, threshold)
  {
    hide IsPastEnd;
    forall i: nat | IsDueDate(rule, i, threshold)
      ensures (id, Chain(rule.schedule, i)) in rows
    {
      DueDatesBeforeProgress(rule, k, i, threshold);
    }
    forall date | (id, date) in rows
      ensures exists i: nat :: date == Chain(rule.schedule, i) && IsDueDate(rule, i, threshold)
    {
      var i: nat :| IsOwnRow(rule, id, first, date, rows[(id, date)], i);
    }
  }

  // A run that nobody overlaps.

  /** Loading and writing at once is the run of the job; a run that is dropped leaves no trace. */
  lemma LoadThenPersistIsTheRun(s: Workshop, w: nat, id: Id, threshold: Date)
    requires CanStep(s, Load(w, id, threshold))
    ensures var loaded := Stepped(s, Load(w, id, threshold));
            && loaded.store == s.store && CanStep(loaded, Persist(w)) && CanStep(loaded, Drop(w))
            && Stepped(loaded, Persist(w)) == s.(store := GenerateOne(s.store, id, threshold, _ => false))
            && Stepped(loaded, Drop(w)) == s
  {
    hide Emit, FindsEnd, FirstTarget, MaxGenerations, InsertIgnoring;
    var loaded := Stepped(s, Load(w, id, threshold));
    assert loaded.workers - {w} == s.workers;
    var rule := s.store.rules[id];
    if Emitted(rule, threshold) == [] && Generated(rule, threshold).active {
      NothingToInsert(s.store.rows, id, OccurrencesOf(rule, id, Emitted(rule, threshold)));
      assert s.store.rules[id := rule] == s.store.rules;
    }
  }

  lemma NothingToInsert(rows: RowTable, id: Id, ts: seq<Transaction>)
    requires ts == []
    ensures InsertIgnoring(rows, id, ts) == rows
  {
  }
}
