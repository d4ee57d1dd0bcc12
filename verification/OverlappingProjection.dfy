/** The generator and the projection agree even while runs overlap and write from stale snapshots. */
module OverlappingProjection {
  import opened Results
  import opened Collections
  import opened CivilCalendar
  import opened Transactions
  import opened Recurrence
  import opened Generation
  import opened GenerationRuns
  import opened RecurringRepository
  import opened OverlappingRuns
  import opened MonthProjection

  /**
   Every rule's progress is covered by its rows, and every snapshot at work differs from its rule
   only in a progress that is covered too.
   */
  ghost predicate AllAccounted(s: Workshop) {
    && (forall id :: id in s.store.rules ==> IsAccepted(s.store.rules[id]) && IsAccounted(s.store.rows, id, s.store.rules[id]))
    && forall w :: w in s.workers ==> IsSnapshot(s.store, s.workers[w])
  }

  ghost predicate IsSnapshot(store: Store, worker: Worker) {
    && worker.id in store.rules && SameTerms(worker.rule, store.rules[worker.id])
    && IsAccounted(store.rows, worker.id, worker.rule)
  }

  // What a rule still brings does not depend on how far it says it has come.

  /** All dates of the rule in the month that have no row, from its very start. */
  ghost function Missing(rows: RowTable, id: Id, rule: Rule, month: Month): int {
    NotYet(rows, id, rule, rule.schedule.startDate, month)
  }

  /** From any point of the chain whose earlier dates have rows, the same dates are missing. */
  lemma {:induction false} CoveredDatesAreNotMissing(rows: RowTable, id: Id, rule: Rule, k: nat, month: Month)
    requires forall i: nat :: i < k ==> (id, Chain(rule.schedule, i)) in rows
    ensures NotYet(rows, id, rule, Chain(rule.schedule, k), month) == Missing(rows, id, rule, month)
    decreases k
  {
    hide NextGenerationDate, IsPastEnd, NotYet;
    if k > 0 {
      CoveredDatesAreNotMissing(rows, id, rule, k - 1, month);
      CoveredDateAddsNothing(rows, id, rule, Chain(rule.schedule, k - 1), month);
    }
  }

  lemma CoveredDateAddsNothing(rows: RowTable, id: Id, rule: Rule, target: Date, month: Month)
    requires (id, target) in rows
    ensures NotYet(rows, id, rule, target, month) == NotYet(rows, id, rule, Next(rule, target), month)
  {
    hide NextGenerationDate;
    StepIsLater(rule.schedule, target);
    if target > month.end || IsPastEnd(rule, target) {
      PastDatesBringNothing(rows, id, rule, Next(rule, target), month);
    }
  }

  lemma PastDatesBringNothing(rows: RowTable, id: Id, rule: Rule, target: Date, month: Month)
    requires target > month.end || IsPastEnd(rule, target)
    ensures NotYet(rows, id, rule, target, month) == 0
  {
  }

  lemma AccountedIsMissing(rows: RowTable, id: Id, rule: Rule, month: Month)
    requires IsAccounted(rows, id, rule)
    ensures NotYet(rows, id, rule, FirstTarget(rule), month) == Missing(rows, id, rule, month)
    ensures !rule.active ==> Missing(rows, id, rule, month) == 0
    ensures HasStarted(rule)
  {
    hide Reached, IsPastEnd, NotYet, FirstTarget, Chain;
    var k: nat :| AccountsFor(rows, id, rule, k);
    ReachedTarget(rule, k);
    ReachedHasStarted(rule, k);
    CoveredDatesAreNotMissing(rows, id, rule, k, month);
    if !rule.active {
      PastDatesBringNothing(rows, id, rule, Chain(rule.schedule, k), month);
    }
  }

  /** The projection's share of an accounted rule is what is missing of it. */
  lemma ShareIsMissing(store: Store, id: Id, month: Month, kind: TransactionType)
    requires id in store.rules && IsAccounted(store.rows, id, store.rules[id]) && kind != TRANSFER
    ensures RuleShare(store, id, month, kind)
         == if store.rules[id].kind == kind then Missing(store.rows, id, store.rules[id], month) else 0
  {
    hide IsAccounted, NotYet, FirstTarget, Missing, HasStarted;
    var rule := store.rules[id];
    AccountedIsMissing(store.rows, id, rule, month);
    if rule.active && rule.kind == kind && !IsVisible(rule, month) {
      FilterLosesNothing(store.rows, id, rule, month);
    }
  }

  lemma MissingOfSameTerms(rows: RowTable, id: Id, a: Rule, b: Rule, month: Month)
    requires SameTerms(a, b)
    ensures Missing(rows, id, a, month) == Missing(rows, id, b, month)
  {
    NotYetOfSameTerms(rows, id, a, b, a.schedule.startDate, month);
  }

  // One stale write.

  /** A snapshot, as its own run leaves it, is accounted for by the rows that run leaves. */
  lemma SnapshotStaysAccounted(store: Store, worker: Worker)
    requires IsSnapshot(store, worker) && IsAccepted(worker.rule)
    ensures IsAccounted(PersistRun(store, worker).rows, worker.id, Generated(worker.rule, worker.threshold))
  {
    hide Emitted, Generated, Reached, IsAccepted, IsPastEnd;
    var k: nat :| AccountsFor(store.rows, worker.id, worker.rule, k);
    var next, n := Generated(worker.rule, worker.threshold), |Emitted(worker.rule, worker.threshold)|;
    GeneratedReaches(worker.rule, k, worker.threshold);
    GeneratedIsSameTerms(worker.rule, worker.threshold);
    TermsDecide(next, worker.rule, worker.id, Chain(worker.rule.schedule, k + n));
    RowsReachFurther(store, worker, k);
    assert AccountsFor(PersistRun(store, worker).rows, worker.id, next, k + n);
  }

  /** What a stale run inserts as pending is exactly what goes missing no longer. */
  lemma StaleRunConserves(store: Store, worker: Worker, month: Month)
    requires IsSnapshot(store, worker) && IsAccepted(worker.rule)
    ensures var after := PersistRun(store, worker).rows;
            Scheduled(after, month, worker.rule.kind) + Missing(after, worker.id, worker.rule, month)
            == Scheduled(store.rows, month, worker.rule.kind) + Missing(store.rows, worker.id, worker.rule, month)
  {
    hide Emit, FindsEnd, IsAccounted, NotYet, Missing, Scheduled, FirstTarget, MaxGenerations, IsAccepted, InsertIgnoring;
    var rule, next := worker.rule, Generated(worker.rule, worker.threshold);
    EmittingConserves(store.rows, worker.id, rule, FirstTarget(rule), worker.threshold, MaxGenerations(rule.schedule.frequency), month);
    SnapshotStaysAccounted(store, worker);
    AccountedIsMissing(store.rows, worker.id, rule, month);
    AccountedIsMissing(PersistRun(store, worker).rows, worker.id, next, month);
    NextTarget(rule, next, Emitted(rule, worker.threshold));
    MissingOfSameTerms(PersistRun(store, worker).rows, worker.id, next, rule, month);
    NotYetOfSameTerms(PersistRun(store, worker).rows, worker.id, next, rule, FirstTarget(next), month);
  }

  lemma StaleWriteConserves(s: Workshop, w: nat, month: Month, kind: TransactionType)
    requires AllAccounted(s) && w in s.workers && kind != TRANSFER
    ensures Expected(PersistRun(s.store, s.workers[w]), month, kind) == Expected(s.store, month, kind)
  {
    hide Emitted, IsAccounted, RuleShare, Scheduled, OccurrencesOf, InsertIgnoring, Generated, Sum, IsAccepted, Missing;
    var store, worker := s.store, s.workers[w];
    var id, rule, next := worker.id, worker.rule, PersistRun(store, worker);
    var ts := OccurrencesOf(rule, id, Emitted(rule, worker.threshold));
    assert IsSnapshot(store, worker);
    TermsDecide(rule, store.rules[id], id, 0);
    forall other | other in store.rules && other != id
      ensures RuleShare(next, other, month, kind) == RuleShare(store, other, month, kind)
    {
      OtherShares(store, id, Generated(rule, worker.threshold), ts, other, month, kind);
    }
    SharesReplaced(store, next, id, month, kind);
    PersistAccounts(store, worker);
    ShareIsMissing(store, id, month, kind);
    ShareIsMissing(next, id, month, kind);
    MissingOfSameTerms(next.rows, id, next.rules[id], rule, month);
    MissingOfSameTerms(store.rows, id, store.rules[id], rule, month);
    if rule.kind == kind {
      StaleRunConserves(store, worker, month);
    } else {
      OccurrencesKeepTheKind(rule, id, Emitted(rule, worker.threshold));
      OtherKindsConserve(store.rows, id, ts, month, kind);
    }
  }

  lemma OccurrencesKeepTheKind(rule: Rule, id: Id, dates: seq<Date>)
    ensures forall t :: t in OccurrencesOf(rule, id, dates) ==> t.kind == rule.kind
  {
  }

  // Whole interleavings.

  lemma StepKeepsAccounts(s: Workshop, step: WorkshopStep)
    requires AllAccounted(s) && CanStep(s, step)
    ensures AllAccounted(Stepped(s, step))
  {
    hide IsAccounted, IsAccepted, IsListed;
    if step.Persist? {
      var worker := s.workers[step.w];
      assert IsSnapshot(s.store, worker);
      var next := PersistRun(s.store, worker);
      TermsDecide(worker.rule, s.store.rules[worker.id], worker.id, 0);
      PersistAccounts(s.store, worker);
      RowsOnlyGrow(s.store, worker);
      forall id | id in next.rules
        ensures IsAccepted(next.rules[id]) && IsAccounted(next.rows, id, next.rules[id])
      {
        TermsDecide(next.rules[id], s.store.rules[id], id, 0);
        if id != worker.id { MoreRowsAccount(s.store.rows, next.rows, id, s.store.rules[id]); }
      }
      forall v | v in s.workers
        ensures IsSnapshot(next, s.workers[v])
      {
        MoreRowsAccount(s.store.rows, next.rows, s.workers[v].id, s.workers[v].rule);
      }
    }
  }

  lemma RowsOnlyGrow(store: Store, worker: Worker)
    ensures forall key :: key in store.rows ==> key in PersistRun(store, worker).rows
    ensures PersistRun(store, worker).rules.Keys == store.rules.Keys
    ensures forall id :: id in store.rules ==> SameTerms(PersistRun(store, worker).rules[id], store.rules[id])
    ensures forall id :: id in store.rules && id != worker.id ==> PersistRun(store, worker).rules[id] == store.rules[id]
  {
    hide Emitted, Generated, OccurrencesOf;
  }

  ghost predicate IsInterleaving(states: seq<Workshop>, steps: seq<WorkshopStep>) {
    && |states| == |steps| + 1
    && forall i :: 0 <= i < |steps| ==> CanStep(states[i], steps[i]) && states[i + 1] == Stepped(states[i], steps[i])
  }

  /**
   However runs load, overlap, write late or are lost, what a month expects, scheduled and not yet
   generated together, stays what it was.
   */
  lemma {:induction false} OverlappingRunsConserve(states: seq<Workshop>, steps: seq<WorkshopStep>, month: Month, kind: TransactionType)
    requires IsInterleaving(states, steps) && AllAccounted(states[0]) && kind != TRANSFER
    ensures AllAccounted(states[|steps|])
    ensures Expected(states[|steps|].store, month, kind) == Expected(states[0].store, month, kind)
    decreases |steps|
  {
    hide AllAccounted, Expected, PersistRun, CanStep;
    if steps != [] {
      var n := |steps| - 1;
      OverlappingRunsConserve(states[..n + 1], steps[..n], month, kind);
      StepKeepsAccounts(states[n], steps[n]);
      if steps[n].Persist? {
        assert CanStep(states[n], steps[n]);
        PersistIsAWrite(states[n], steps[n].w);
        StaleWriteConserves(states[n], steps[n].w, month, kind);
      }
    }
  }

  lemma PersistIsAWrite(s: Workshop, w: nat)
    requires CanStep(s, Persist(w))
    ensures w in s.workers && Stepped(s, Persist(w)).store == PersistRun(s.store, s.workers[w])
  {
  }

  /** Rules that have generated nothing yet, with no run at work, are where it may begin. */
  lemma FreshRulesAreAccounted(s: Workshop)
    requires s.workers == map[]
    requires forall id :: id in s.store.rules ==>
               s.store.rules[id].lastGenerated.None? && s.store.rules[id].active && IsAccepted(s.store.rules[id])
    ensures AllAccounted(s)
  {
    hide IsAccepted;
    forall id | id in s.store.rules
      ensures IsAccounted(s.store.rows, id, s.store.rules[id])
    {
      assert AccountsFor(s.store.rows, id, s.store.rules[id], 0);
    }
  }
}
