/** The stored rules and their generated rows, and the job that walks through all due rules. */
module RecurringRepository {
  import opened Results
  import opened Collections
  import opened CivilCalendar
  import opened Transactions
  import opened Generation
  import opened GenerationRuns

  /** Rows of recurring rules, under their unique index on rule and date. */
  type RowTable = map<(Id, Date), Transaction>

  datatype Store = Store(rows: RowTable, rules: map<Id, Rule>)

  function InsertIgnoring(rows: RowTable, id: Id, ts: seq<Transaction>): (r: RowTable)
    ensures forall key :: key in rows ==> key in r && r[key] == rows[key]
    decreases |ts|
  {
    if ts == [] then rows
    else InsertIgnoring(if (id, ts[0].date) in rows then rows else rows[(id, ts[0].date) := ts[0]], id, ts[1..])
  }

  /** One database transaction: the new rows, then the rule's progress. */
  function Persisted(store: Store, id: Id, updated: Rule, ts: seq<Transaction>): Store {
    Store(InsertIgnoring(store.rows, id, ts),
          if id in store.rules
          then store.rules[id := store.rules[id].(lastGenerated := updated.lastGenerated, active := updated.active)]
          else store.rules)
  }

  function DueIds(rules: map<Id, Rule>, reference: Date): set<Id> {
    set id | id in rules && IsListed(rules[id], reference)
  }

  function Later(ids: set<Id>, afterId: Option<Id>): set<Id> {
    set id | id in ids && (afterId.Some? ==> id > afterId.value)
  }

  function Limited(ids: seq<Id>, limit: nat): seq<Id> {
    if |ids| <= limit then ids else ids[..limit]
  }

  const BATCH_SIZE := 50

  /** What the job makes of one due rule; a write that fails leaves the store as it was. */
  function GenerateOne(store: Store, id: Id, threshold: Date, fails: Id -> bool): Store
    requires id in store.rules
  {
    var rule := store.rules[id];
    var ts, after := OccurrencesOf(rule, id, Emitted(rule, threshold)), Generated(rule, threshold);
    if (ts == [] && after.active) || fails(id) then store else Persisted(store, id, after, ts)
  }

  function GenerateEach(store: Store, ids: seq<Id>, threshold: Date, fails: Id -> bool): (r: Store)
    requires forall id :: id in ids ==> id in store.rules
    ensures r.rules.Keys == store.rules.Keys
    decreases |ids|
  {
    if ids == [] then store
    else
      var rest := ids[..|ids| - 1];
      var before := GenerateEach(store, rest, threshold, fails);
      GenerateOne(before, ids[|ids| - 1], threshold, fails)
  }

  /** A page is the smallest due ids after the last one seen: ascending, and short only when no more are due. */
  lemma PageIsTheNextDue(rules: map<Id, Rule>, reference: Date, limit: nat, afterId: Option<Id>)
    ensures var due := Later(DueIds(rules, reference), afterId);
            var page := Limited(Ascending(due), limit);
            && (forall i, j :: 0 <= i < j < |page| ==> page[i] < page[j])
            && |page| <= limit && (forall id :: id in page ==> id in due)
            && (forall id :: id in due <==>
                  && id in rules && (afterId.Some? ==> id > afterId.value)
                  && rules[id].active && rules[id].schedule.startDate <= reference
                  && (rules[id].lastGenerated.None? || rules[id].lastGenerated.value < reference))
            && (forall id :: id in due && id !in page ==> |page| == limit && forall k :: k in page ==> k < id)
  {
    var due := Later(DueIds(rules, reference), afterId);
    DueMeans(rules, reference, afterId);
    hide Later, DueIds, IsListed;
    var all, page := Ascending(due), Limited(Ascending(due), limit);
    forall id, k | id in due && id !in page && k in page
      ensures k < id
    {
      var i :| 0 <= i < |all| && all[i] == id;
      var j :| 0 <= j < |page| && page[j] == k;
      StartIsInPrefix(all, |page|);
    }
  }

  lemma DueMeans(rules: map<Id, Rule>, reference: Date, afterId: Option<Id>)
    ensures forall id :: id in Later(DueIds(rules, reference), afterId) <==>
              && id in rules && (afterId.Some? ==> id > afterId.value)
              && rules[id].active && rules[id].schedule.startDate <= reference
              && (rules[id].lastGenerated.None? || rules[id].lastGenerated.value < reference)
  {
  }

  lemma StartIsInPrefix(all: seq<Id>, n: nat)
    requires n <= |all|
    ensures forall i :: 0 <= i < n ==> all[i] in all[..n]
  {
    assert forall i :: 0 <= i < n ==> all[i] == all[..n][i];
  }

  lemma EachUnrolls(store: Store, ids: seq<Id>, n: nat, threshold: Date, fails: Id -> bool)
    requires n < |ids| && forall id :: id in ids ==> id in store.rules
    ensures GenerateEach(store, ids[..n + 1], threshold, fails)
         == GenerateOne(GenerateEach(store, ids[..n], threshold, fails), ids[n], threshold, fails)
  {
    assert ids[..n + 1][..n] == ids[..n];
  }

  lemma {:induction false} EachTouchesItsRule(store: Store, ids: seq<Id>, threshold: Date, fails: Id -> bool, id: Id)
    requires forall k :: k in ids ==> k in store.rules
    requires id !in ids && id in store.rules
    ensures GenerateEach(store, ids, threshold, fails).rules[id] == store.rules[id]
    decreases |ids|
  {
    hide Emitted, Generated, OccurrencesOf;
    if ids != [] {
      EachTouchesItsRule(store, ids[..|ids| - 1], threshold, fails, id);
    }
  }

  // Ascending pages.

  lemma AscendingUnrolls(ids: set<Id>)
    requires ids != {}
    ensures Ascending(ids) == [Least(ids)] + Ascending(ids - {Least(ids)})
    ensures forall id :: id in ids - {Least(ids)} ==> id > Least(ids)
  {
  }

  lemma LaterThanLeast(ids: set<Id>, bound: Id)
    requires ids != {} && bound >= Least(ids)
    ensures Later(ids, Some(bound)) == Later(ids - {Least(ids)}, Some(bound))
    ensures Later(ids, Some(Least(ids))) == ids - {Least(ids)}
  {
  }

  lemma TailOfCons(least: Id, rest: seq<Id>, n: nat)
    requires 0 < n <= |rest| + 1
    ensures ([least] + rest)[n..] == rest[n - 1..]
    ensures ([least] + rest)[n - 1] == if n == 1 then least else rest[n - 2]
  {
  }

  lemma {:induction false} AscendingAfter(ids: set<Id>, n: nat)
    requires 0 < n <= |Ascending(ids)|
    ensures Ascending(Later(ids, Some(Ascending(ids)[n - 1]))) == Ascending(ids)[n..]
    decreases n
  {
    assert ids != {};
    hide Ascending, Least, Later;
    var least, others := Least(ids), ids - {Least(ids)};
    AscendingUnrolls(ids);
    TailOfCons(least, Ascending(others), n);
    if n == 1 {
      LaterThanLeast(ids, least);
      assert Ascending(others)[0..] == Ascending(others);
    } else {
      AscendingAfter(others, n - 1);
      var bound := Ascending(others)[n - 2];
      assert bound in Ascending(others) && bound in others;
      LaterThanLeast(ids, bound);
    }
  }

  class RecurringRepository {
    var rows: RowTable
    var rules: map<Id, Rule>

    function State(): Store
      reads this
    {
      Store(rows, rules)
    }

    method CreateGeneratedTransactions(id: Id, transactions: seq<Transaction>, updated: Rule) returns (insertedCount: nat)
      modifies this
      ensures State() == Persisted(old(State()), id, updated, transactions)
      ensures |rows| == |old(rows)| + insertedCount
    {
      insertedCount := 0;
      for i := 0 to |transactions|
        invariant rules == old(rules)
        invariant InsertIgnoring(rows, id, transactions[i..]) == InsertIgnoring(old(rows), id, transactions)
        invariant |rows| == |old(rows)| + insertedCount
      {
        var t := transactions[i];
        assert transactions[i..][1..] == transactions[i + 1..];
        if (id, t.date) !in rows {
          rows := rows[(id, t.date) := t];
          insertedCount := insertedCount + 1;
        }
      }
      if id in rules {
        rules := rules[id := rules[id].(lastGenerated := updated.lastGenerated, active := updated.active)];
      }
    }

    /** A page of due rules in order of id, strictly after the last id already seen. */
    method ListNeedingGeneration(reference: Date, limit: nat, afterId: Option<Id>) returns (batch: seq<Id>)
      ensures batch == Limited(Ascending(Later(DueIds(rules, reference), afterId)), limit)
    {
      batch := Limited(Ascending(Later(DueIds(rules, reference), afterId)), limit);
    }
  }

  method GenerateForRecurring(repository: RecurringRepository, id: Id, threshold: Date, fails: Id -> bool)
    returns (generatedCount: nat, failed: bool)
    requires id in repository.rules
    modifies repository
    ensures repository.State() == GenerateOne(old(repository.State()), id, threshold, fails)
    ensures |repository.rows| == |old(repository.rows)| + generatedCount
    ensures failed <==> RunFails(old(repository.rules[id]), id, threshold, fails)
  {
    var recurring := new RecurringTransaction(id, repository.rules[id]);
    var transactionsToCreate;
    transactionsToCreate, failed := GenerateTransactionsForRecurring(recurring, threshold);
    if transactionsToCreate == [] && recurring.active {
      return 0, failed;
    }
    if fails(id) {
      return 0, true;
    }
    generatedCount := repository.CreateGeneratedTransactions(id, transactionsToCreate, recurring.State());
  }

  /** The run of a rule fails: its transactions are refused, or there was something to write and the write failed. */
  predicate RunFails(rule: Rule, id: Id, threshold: Date, fails: Id -> bool) {
    MeetsRefusal(rule, threshold)
    || (fails(id) && (Emitted(rule, threshold) != [] || !Generated(rule, threshold).active))
  }

  /** The rules, among some, whose run fails. */
  function FailingIds(rules: map<Id, Rule>, ids: seq<Id>, threshold: Date, fails: Id -> bool): set<Id> {
    set id | id in ids && id in rules && RunFails(rules[id], id, threshold, fails)
  }

  lemma FailingIdsGrow(store: Store, ids: seq<Id>, n: nat, threshold: Date, fails: Id -> bool)
    requires n < |ids| && forall i, j :: 0 <= i < j < |ids| ==> ids[i] < ids[j]
    requires forall id :: id in ids ==> id in store.rules
    ensures var now := GenerateEach(store, ids[..n], threshold, fails);
            |FailingIds(store.rules, ids[..n + 1], threshold, fails)|
            == |FailingIds(store.rules, ids[..n], threshold, fails)| + (if RunFails(now.rules[ids[n]], ids[n], threshold, fails) then 1 else 0)
  {
    hide RunFails, GenerateEach;
    var id := ids[n];
    EachTouchesItsRule(store, ids[..n], threshold, fails, id);
    assert ids[..n + 1] == ids[..n] + [id];
    assert FailingIds(store.rules, ids[..n + 1], threshold, fails)
        == FailingIds(store.rules, ids[..n], threshold, fails) + (if RunFails(store.rules[id], id, threshold, fails) then {id} else {});
  }

  /**
   The job over all due rules, a page at a time. It ends, and it visits exactly the rules that
   were due when it began, each once and in order of id, though running a rule may leave it due.
   A rule that fails is counted and stops no other; every row added repeats a rule that was due.
   */
  method GenerateAll(repository: RecurringRepository, lookAheadDate: Date, fails: Id -> bool)
    returns (generatedCount: nat, failedCount: nat, processedCount: nat)
    modifies repository
    ensures var due := Ascending(DueIds(old(repository.rules), lookAheadDate));
            && processedCount == |due|
            && repository.State() == GenerateEach(old(repository.State()), due, lookAheadDate, fails)
    ensures |repository.rows| == |old(repository.rows)| + generatedCount
    ensures failedCount == |FailingIds(old(repository.rules), Ascending(DueIds(old(repository.rules), lookAheadDate)), lookAheadDate, fails)|
    ensures forall key :: key in repository.rows ==>
              if key in old(repository.rows) then repository.rows[key] == old(repository.rows)[key]
              else IsGeneratedRow(old(repository.rules), Ascending(DueIds(old(repository.rules), lookAheadDate)), key, repository.rows[key])
  {
    hide GenerateOne, GenerateEach, Ascending, DueIds, FailingIds, RunFails, IsGeneratedRow;
    generatedCount, failedCount, processedCount := 0, 0, 0;
    ghost var start := repository.State();
    ghost var due := Ascending(DueIds(start.rules, lookAheadDate));
    DueAreRules(start.rules, lookAheadDate);
    var afterId: Option<Id> := None;
    var more := true;
    EachOfNone(start, due, lookAheadDate, fails);
    while more
      invariant processedCount <= |due|
      invariant failedCount == |FailingIds(start.rules, due[..processedCount], lookAheadDate, fails)|
      invariant more ==> afterId == (if processedCount == 0 then None else Some(due[processedCount - 1]))
      invariant !more ==> processedCount == |due|
      invariant repository.State() == GenerateEach(start, due[..processedCount], lookAheadDate, fails)
      invariant |repository.rows| == |start.rows| + generatedCount
      decreases |due| - processedCount, more
    {
      var batch := repository.ListNeedingGeneration(lookAheadDate, BATCH_SIZE, afterId);
      PageIsNext(start, lookAheadDate, fails, processedCount, afterId);
      ghost var first := processedCount;
      assert batch == Limited(due[first..], BATCH_SIZE);
      for i := 0 to |batch|
        invariant processedCount == first + i <= |due|
        invariant failedCount == |FailingIds(start.rules, due[..processedCount], lookAheadDate, fails)|
        invariant repository.State() == GenerateEach(start, due[..processedCount], lookAheadDate, fails)
        invariant |repository.rows| == |start.rows| + generatedCount
      {
        EachUnrolls(start, due, processedCount, lookAheadDate, fails);
        FailingIdsGrow(start, due, processedCount, lookAheadDate, fails);
        var generated, failed := GenerateForRecurring(repository, batch[i], lookAheadDate, fails);
        processedCount := processedCount + 1;
        generatedCount := generatedCount + generated;
        if failed { failedCount := failedCount + 1; }
      }
      afterId := if |batch| > 0 then Some(batch[|batch| - 1]) else None;
      more := |batch| == BATCH_SIZE;
    }
    assert due[..|due|] == due;
    forall key | key in repository.rows
      ensures if key in start.rows then repository.rows[key] == start.rows[key]
              else IsGeneratedRow(start.rules, due, key, repository.rows[key])
    {
      JobAddsRowsOfItsRules(start, due, lookAheadDate, fails, key);
    }
  }

  lemma DueAreRules(rules: map<Id, Rule>, reference: Date)
    ensures forall id :: id in Ascending(DueIds(rules, reference)) ==> id in rules
  {
  }

  lemma EachOfNone(start: Store, due: seq<Id>, threshold: Date, fails: Id -> bool)
    ensures GenerateEach(start, due[..0], threshold, fails) == start
    ensures FailingIds(start.rules, due[..0], threshold, fails) == {}
  {
  }

  /** The next page is the next stretch of the rules due at the start. */
  lemma PageIsNext(start: Store, reference: Date, fails: Id -> bool, done: nat, afterId: Option<Id>)
    requires done <= |Ascending(DueIds(start.rules, reference))|
    requires afterId == if done == 0 then None else Some(Ascending(DueIds(start.rules, reference))[done - 1])
    requires forall id :: id in Ascending(DueIds(start.rules, reference)) ==> id in start.rules
    ensures var due := Ascending(DueIds(start.rules, reference));
            var now := GenerateEach(start, due[..done], reference, fails);
            Limited(Ascending(Later(DueIds(now.rules, reference), afterId)), BATCH_SIZE) == Limited(due[done..], BATCH_SIZE)
  {
    hide GenerateEach, IsListed;
    var due := Ascending(DueIds(start.rules, reference));
    var now := GenerateEach(start, due[..done], reference, fails);
    forall id
      ensures id in Later(DueIds(now.rules, reference), afterId) <==> id in Later(DueIds(start.rules, reference), afterId)
    {
      if id in start.rules && (afterId.Some? ==> id > afterId.value) {
        assert id !in due[..done];
        EachTouchesItsRule(start, due[..done], reference, fails, id);
      }
    }
    assert Later(DueIds(now.rules, reference), afterId) == Later(DueIds(start.rules, reference), afterId);
    if done == 0 {
      assert Later(DueIds(start.rules, reference), None) == DueIds(start.rules, reference);
    } else {
      AscendingAfter(DueIds(start.rules, reference), done);
    }
  }

  // The rows a job adds.

  lemma {:induction false} InsertedKeys(rows: RowTable, id: Id, ts: seq<Transaction>, key: (Id, Date))
    requires key in InsertIgnoring(rows, id, ts) && key !in rows
    ensures key.0 == id && exists i :: 0 <= i < |ts| && ts[i].date == key.1 && InsertIgnoring(rows, id, ts)[key] == ts[i]
    decreases |ts|
  {
    if ts != [] {
      var next := if (id, ts[0].date) in rows then rows else rows[(id, ts[0].date) := ts[0]];
      if key !in next {
        InsertedKeys(next, id, ts[1..], key);
        var i :| 0 <= i < |ts[1..]| && ts[1..][i].date == key.1 && InsertIgnoring(next, id, ts[1..])[key] == ts[1..][i];
        assert ts[i + 1] == ts[1..][i];
      }
    }
  }

  /** A row that was not there before: of a rule that was run, and repeating it, on its own date. */
  predicate IsGeneratedRow(rules: map<Id, Rule>, ids: seq<Id>, key: (Id, Date), row: Transaction) {
    && key.0 in ids && key.0 in rules && row.date == key.1
    && RepeatsTheRule(row, rules[key.0], key.0)
  }

  lemma OneRunAddsItsRows(store: Store, id: Id, threshold: Date, fails: Id -> bool, key: (Id, Date))
    requires id in store.rules && key in GenerateOne(store, id, threshold, fails).rows && key !in store.rows
    ensures IsGeneratedRow(store.rules, [id], key, GenerateOne(store, id, threshold, fails).rows[key])
  {
    hide Emitted, Generated, InsertIgnoring;
    InsertedKeys(store.rows, id, OccurrencesOf(store.rules[id], id, Emitted(store.rules[id], threshold)), key);
  }

  /** Running rules changes of each its progress and whether it is active, and nothing else. */
  lemma {:induction false} RunsKeepTheTerms(store: Store, ids: seq<Id>, threshold: Date, fails: Id -> bool, id: Id)
    requires id in store.rules && forall k :: k in ids ==> k in store.rules
    ensures SameTerms(GenerateEach(store, ids, threshold, fails).rules[id], store.rules[id])
    decreases |ids|
  {
    hide Emitted, Generated, OccurrencesOf;
    if ids != [] { RunsKeepTheTerms(store, ids[..|ids| - 1], threshold, fails, id); }
  }

  /** Every row a job adds repeats, field by field, a rule it ran, and rows that were there stay as they were. */
  lemma {:induction false} JobAddsRowsOfItsRules(store: Store, ids: seq<Id>, threshold: Date, fails: Id -> bool, key: (Id, Date))
    requires forall id :: id in ids ==> id in store.rules
    requires key in GenerateEach(store, ids, threshold, fails).rows
    ensures var row := GenerateEach(store, ids, threshold, fails).rows[key];
            if key in store.rows then row == store.rows[key] else IsGeneratedRow(store.rules, ids, key, row)
    decreases |ids|
  {
    hide Emitted, Generated, OccurrencesOf;
    if ids != [] {
      var rest, id := ids[..|ids| - 1], ids[|ids| - 1];
      var before := GenerateEach(store, rest, threshold, fails);
      if key in before.rows {
        JobAddsRowsOfItsRules(store, rest, threshold, fails, key);
        RowsStay(before, id, threshold, fails, key);
      } else {
        EachKeepsRows(store, rest, threshold, fails, key);
        OneRunAddsItsRows(before, id, threshold, fails, key);
        RunsKeepTheTerms(store, rest, threshold, fails, id);
      }
    }
  }

  lemma {:induction false} EachKeepsRows(store: Store, ids: seq<Id>, threshold: Date, fails: Id -> bool, key: (Id, Date))
    requires forall id :: id in ids ==> id in store.rules
    ensures key in store.rows ==> key in GenerateEach(store, ids, threshold, fails).rows
    decreases |ids|
  {
    hide Emitted, Generated, OccurrencesOf;
    if ids != [] && key in store.rows {
      var rest := ids[..|ids| - 1];
      EachKeepsRows(store, rest, threshold, fails, key);
      RowsStay(GenerateEach(store, rest, threshold, fails), ids[|ids| - 1], threshold, fails, key);
    }
  }

  lemma RowsStay(store: Store, id: Id, threshold: Date, fails: Id -> bool, key: (Id, Date))
    requires id in store.rules && key in store.rows
    ensures key in GenerateOne(store, id, threshold, fails).rows && GenerateOne(store, id, threshold, fails).rows[key] == store.rows[key]
  {
    hide Emitted, Generated, OccurrencesOf;
  }
}
