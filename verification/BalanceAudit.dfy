/** Backfilling the movements of accounts older than the movement table, and reconciling. */
module BalanceAudit {
  import opened Results
  import opened Collections
  import opened Accounts
  import opened Transactions
  import opened Ledger
  import opened LedgerRuns
  import opened LedgerTheorems
  import T = TransactionRepository

  // Backfill.

  /** What an account still lacks in its movements: its balance minus what they explain. */
  function MissingOpening(l: LedgerState, id: Id): int
    requires id in l.accounts
  {
    l.accounts[id].balance - DeltaSum(l.movements, id)
  }

  predicate IsCovered(l: LedgerState, id: Id) {
    OpeningCount(l.movements, id) > 0
  }

  function WithOpening(l: LedgerState, id: Id, opening: int, balance: int): LedgerState {
    l.(movements := l.movements + [Movement(id, None, OPENING, opening, balance)])
  }

  function BackfillOne(l: LedgerState, id: Id): LedgerState
    requires id in l.accounts
  {
    if IsCovered(l, id) then l else WithOpening(l, id, MissingOpening(l, id), l.accounts[id].balance)
  }

  function Backfill(l: LedgerState, ids: seq<Id>): LedgerState
    requires forall id :: id in ids ==> id in l.accounts
    decreases |ids|
  {
    if ids == [] then l else Backfill(BackfillOne(l, ids[0]), ids[1..])
  }

  function BackfillAll(l: LedgerState): LedgerState {
    Backfill(l, Ascending(l.accounts.Keys))
  }

  lemma OpeningCounted(l: LedgerState, id: Id, opening: int, balance: int, other: Id)
    ensures var next := WithOpening(l, id, opening, balance);
            && DeltaSum(next.movements, other) == DeltaSum(l.movements, other) + (if other == id then opening else 0)
            && OpeningCount(next.movements, other) == OpeningCount(l.movements, other) + (if other == id then 1 else 0)
  {
    var next := WithOpening(l, id, opening, balance);
    assert next.movements[..|next.movements| - 1] == l.movements;
  }

  /** What a backfill leaves of one account: untouched if covered, otherwise fully explained. */
  ghost predicate Explained(l: LedgerState, next: LedgerState, id: Id)
    requires id in l.accounts
  {
    && next.accounts == l.accounts && next.transactions == l.transactions
    && (IsCovered(l, id) ==> DeltaSum(next.movements, id) == DeltaSum(l.movements, id)
                             && OpeningCount(next.movements, id) == OpeningCount(l.movements, id))
    && (!IsCovered(l, id) ==> DeltaSum(next.movements, id) == l.accounts[id].balance
                              && OpeningCount(next.movements, id) == 1)
  }

  lemma {:induction false} BackfillLeavesOthers(l: LedgerState, ids: seq<Id>, id: Id)
    requires forall k :: k in ids ==> k in l.accounts
    requires id !in ids
    ensures var next := Backfill(l, ids);
            && next.accounts == l.accounts && next.transactions == l.transactions
            && DeltaSum(next.movements, id) == DeltaSum(l.movements, id)
            && OpeningCount(next.movements, id) == OpeningCount(l.movements, id)
    decreases |ids|
  {
    hide DeltaSum, OpeningCount;
    if ids != [] {
      assert ids[0] in ids;
      OpeningCounted(l, ids[0], MissingOpening(l, ids[0]), l.accounts[ids[0]].balance, id);
      BackfillLeavesOthers(BackfillOne(l, ids[0]), ids[1..], id);
    }
  }

  lemma {:induction false} BackfillExplains(l: LedgerState, ids: seq<Id>, id: Id)
    requires forall k :: k in ids ==> k in l.accounts
    requires forall i, j :: 0 <= i < j < |ids| ==> ids[i] < ids[j]
    requires id in ids
    ensures Explained(l, Backfill(l, ids), id)
    decreases |ids|
  {
    hide DeltaSum, OpeningCount;
    InHeadOrTail(ids, id);
    var next := BackfillOne(l, ids[0]);
    OpeningCounted(l, ids[0], MissingOpening(l, ids[0]), l.accounts[ids[0]].balance, id);
    if id == ids[0] {
      BackfillLeavesOthers(next, ids[1..], id);
    } else {
      BackfillExplains(next, ids[1..], id);
    }
  }

  /** One backfill explains every account and gives each at most one opening of its own. */
  lemma BackfillExplainsEveryAccount(l: LedgerState, id: Id)
    requires id in l.accounts
    ensures Explained(l, BackfillAll(l), id) && IsCovered(BackfillAll(l), id)
  {
    BackfillExplains(l, Ascending(l.accounts.Keys), id);
  }

  lemma {:induction false} BackfillOfCoveredIsNothing(l: LedgerState, ids: seq<Id>)
    requires forall id :: id in ids ==> id in l.accounts && IsCovered(l, id)
    ensures Backfill(l, ids) == l
    decreases |ids|
  {
    if ids != [] {
      assert ids[0] in ids;
      BackfillOfCoveredIsNothing(l, ids[1..]);
    }
  }

  /** A second backfill changes nothing. */
  lemma BackfillIsIdempotent(l: LedgerState)
    ensures BackfillAll(BackfillAll(l)) == BackfillAll(l)
  {
    hide Backfill, IsCovered;
    var once := BackfillAll(l);
    assert once.accounts == l.accounts by {
      BackfillKeepsAccounts(l, Ascending(l.accounts.Keys));
    }
    forall id | id in l.accounts
      ensures IsCovered(once, id)
    {
      BackfillExplainsEveryAccount(l, id);
    }
    BackfillOfCoveredIsNothing(once, Ascending(once.accounts.Keys));
  }

  lemma {:induction false} BackfillKeepsAccounts(l: LedgerState, ids: seq<Id>)
    requires forall id :: id in ids ==> id in l.accounts
    ensures Backfill(l, ids).accounts == l.accounts
    decreases |ids|
  {
    if ids != [] {
      assert ids[0] in ids;
      BackfillKeepsAccounts(BackfillOne(l, ids[0]), ids[1..]);
    }
  }

  /**
   The opening computed from an earlier snapshot still makes the movements match the
   balance after any operations in between: the mismatch check after the insert passes.
   */
  lemma StaleOpeningStillMatches(snapshot: LedgerState, ops: seq<Operation>, id: Id)
    requires id in snapshot.accounts
    ensures var now := Run(snapshot, ops);
            && id in now.accounts
            && DeltaSum(WithOpening(now, id, MissingOpening(snapshot, id), snapshot.accounts[id].balance).movements, id)
               == now.accounts[id].balance
  {
    hide DeltaSum, Run;
    RunsKeepTheDrift(snapshot, ops, id);
    OpeningCounted(Run(snapshot, ops), id, MissingOpening(snapshot, id), snapshot.accounts[id].balance, id);
  }

  datatype BackfillSummary = BackfillSummary(
    covered: nat, alreadyCovered: nat, totalOpening: int, negative: nat, zero: nat, positive: nat)

  method ApplyAccount(repository: T.Repository, id: Id) returns (opening: Option<int>)
    requires id in repository.accounts
    modifies repository`movements
    ensures repository.State() == BackfillOne(old(repository.State()), id)
    ensures opening == if IsCovered(old(repository.State()), id) then None
                       else Some(MissingOpening(old(repository.State()), id))
    ensures |repository.movements| == |old(repository.movements)| + (if opening.None? then 0 else 1)
  {
    var snapshot := repository.State();
    if OpeningCount(snapshot.movements, id) > 0 {
      return None;
    }
    var missing := snapshot.accounts[id].balance - DeltaSum(snapshot.movements, id);
    repository.movements := repository.movements + [Movement(id, None, OPENING, missing, snapshot.accounts[id].balance)];
    return Some(missing);
  }

  /** The openings the uncovered accounts among some are missing. */
  function OpeningsAmong(l: LedgerState, ids: set<Id>): map<Id, int> {
    map id | id in ids && id in l.accounts && !IsCovered(l, id) :: MissingOpening(l, id)
  }

  function OpeningsOf(l: LedgerState): map<Id, int> {
    OpeningsAmong(l, l.accounts.Keys)
  }

  /** The accounts whose opening passes a test. */
  function Having(m: map<Id, int>, test: int -> bool): set<Id> {
    set id | id in m && test(m[id])
  }

  /** A summary that counts exactly these openings. */
  ghost predicate Counts(s: BackfillSummary, openings: map<Id, int>) {
    && s.covered == |openings| && s.totalOpening == Sum(openings)
    && s.negative == |Having(openings, v => v < 0)|
    && s.zero == |Having(openings, v => v == 0)|
    && s.positive == |Having(openings, v => v > 0)|
  }

  lemma NothingCounted(s: BackfillSummary, l: LedgerState)
    requires s == BackfillSummary(0, 0, 0, 0, 0, 0)
    ensures Counts(s, OpeningsAmong(l, {}))
  {
    var none := OpeningsAmong(l, {});
    assert none == map[];
    assert Having(none, v => v < 0) == {} && Having(none, v => v == 0) == {} && Having(none, v => v > 0) == {};
  }

  lemma CountsOneMore(s: BackfillSummary, l: LedgerState, ids: set<Id>, id: Id)
    requires Counts(s, OpeningsAmong(l, ids)) && id in l.accounts && id !in ids
    ensures Counts(Counted(s, if IsCovered(l, id) then None else Some(MissingOpening(l, id))), OpeningsAmong(l, ids + {id}))
  {
    hide IsCovered, MissingOpening, Sum;
    var before, after := OpeningsAmong(l, ids), OpeningsAmong(l, ids + {id});
    if IsCovered(l, id) {
      assert after == before;
    } else {
      var opening := MissingOpening(l, id);
      assert after == before[id := opening];
      SumAdds(before, id, opening);
      HavingOneMore(before, id, opening, v => v < 0);
      HavingOneMore(before, id, opening, v => v == 0);
      HavingOneMore(before, id, opening, v => v > 0);
    }
  }

  lemma HavingOneMore(m: map<Id, int>, id: Id, v: int, test: int -> bool)
    requires id !in m
    ensures |Having(m[id := v], test)| == |Having(m, test)| + (if test(v) then 1 else 0)
  {
    assert Having(m[id := v], test) == Having(m, test) + (if test(v) then {id} else {});
  }

  /** The accounts still to visit stand as they did. */
  ghost predicate StandAsBefore(l: LedgerState, now: LedgerState, ids: seq<Id>) {
    && now.accounts == l.accounts
    && forall id :: id in ids ==> id in l.accounts
                                  && IsCovered(now, id) == IsCovered(l, id) && MissingOpening(now, id) == MissingOpening(l, id)
  }

  lemma OthersStand(l: LedgerState, now: LedgerState, ids: seq<Id>, i: nat)
    requires i < |ids| && forall j, k :: 0 <= j < k < |ids| ==> ids[j] < ids[k]
    requires StandAsBefore(l, now, ids[i..])
    ensures ids[i] in l.accounts && StandAsBefore(l, BackfillOne(now, ids[i]), ids[i + 1..])
  {
    hide DeltaSum, OpeningCount;
    assert ids[i] in ids[i..];
    var next := BackfillOne(now, ids[i]);
    forall id | id in ids[i + 1..]
      ensures id in l.accounts && IsCovered(next, id) == IsCovered(l, id) && MissingOpening(next, id) == MissingOpening(l, id)
    {
      assert id in ids[i..] && id != ids[i];
      OpeningCounted(now, ids[i], MissingOpening(now, ids[i]), now.accounts[ids[i]].balance, id);
    }
  }

  function FirstIds(ids: seq<Id>, i: nat): set<Id>
    requires i <= |ids|
  {
    set id | id in ids[..i]
  }

  lemma FirstIdsGrow(ids: seq<Id>, i: nat)
    requires i < |ids| && forall j, k :: 0 <= j < k < |ids| ==> ids[j] < ids[k]
    ensures ids[i] !in FirstIds(ids, i) && FirstIds(ids, i + 1) == FirstIds(ids, i) + {ids[i]}
  {
    assert ids[..i + 1] == ids[..i] + [ids[i]];
  }

  /**
   Visits every account once. Its summary counts the accounts that had no opening, their missing
   openings by sign, and the total of those openings, all as they were before the run.
   */
  method RunApply(repository: T.Repository) returns (summary: BackfillSummary)
    modifies repository`movements
    ensures repository.State() == BackfillAll(old(repository.State()))
    ensures Counts(summary, OpeningsOf(old(repository.State())))
    ensures summary.covered + summary.alreadyCovered == |old(repository.accounts)|
    ensures |repository.movements| == |old(repository.movements)| + summary.covered
  {
    hide BackfillOne, IsCovered, MissingOpening, Ascending, Counted, Counts, StandAsBefore, FirstIds, OpeningsAmong;
    summary := BackfillSummary(0, 0, 0, 0, 0, 0);
    ghost var start := repository.State();
    var ids := Ascending(repository.accounts.Keys);
    AscendingLength(repository.accounts.Keys);
    var i := 0;
    BeforeTheFirst(summary, start, ids);
    while i < |ids|
      invariant 0 <= i <= |ids|
      invariant repository.accounts == start.accounts && forall id :: id in ids ==> id in start.accounts
      invariant Backfill(repository.State(), ids[i..]) == BackfillAll(start)
      invariant StandAsBefore(start, repository.State(), ids[i..])
      invariant Counts(summary, OpeningsAmong(start, FirstIds(ids, i)))
      invariant summary.covered + summary.alreadyCovered == i
      invariant |repository.movements| == |start.movements| + summary.covered
    {
      BackfillUnrolls(repository.State(), ids, i);
      hide Backfill;
      StandingAccount(start, repository.State(), ids, i);
      OthersStand(start, repository.State(), ids, i);
      FirstIdsGrow(ids, i);
      CountsOneMore(summary, start, FirstIds(ids, i), ids[i]);
      var opening := ApplyAccount(repository, ids[i]);
      CountedOnce(summary, opening);
      summary := Counted(summary, opening);
      i := i + 1;
    }
    AfterTheLast(start, repository.State(), ids);
  }

  lemma BeforeTheFirst(s: BackfillSummary, l: LedgerState, ids: seq<Id>)
    requires s == BackfillSummary(0, 0, 0, 0, 0, 0) && forall id :: id in ids ==> id in l.accounts
    ensures ids[0..] == ids && StandAsBefore(l, l, ids)
    ensures Counts(s, OpeningsAmong(l, FirstIds(ids, 0)))
  {
    NothingCounted(s, l);
    assert FirstIds(ids, 0) == {};
  }

  lemma StandingAccount(l: LedgerState, now: LedgerState, ids: seq<Id>, i: nat)
    requires i < |ids| && StandAsBefore(l, now, ids[i..])
    ensures ids[i] in l.accounts && ids[i] in now.accounts
    ensures IsCovered(now, ids[i]) == IsCovered(l, ids[i]) && MissingOpening(now, ids[i]) == MissingOpening(l, ids[i])
  {
    assert ids[i] in ids[i..];
  }

  lemma AfterTheLast(l: LedgerState, now: LedgerState, ids: seq<Id>)
    requires forall id :: id in ids <==> id in l.accounts
    ensures Backfill(now, ids[|ids|..]) == now
    ensures OpeningsAmong(l, FirstIds(ids, |ids|)) == OpeningsOf(l)
  {
    assert ids[..|ids|] == ids && FirstIds(ids, |ids|) == l.accounts.Keys;
  }

  function Counted(s: BackfillSummary, opening: Option<int>): BackfillSummary {
    match opening
    case None => s.(alreadyCovered := s.alreadyCovered + 1)
    case Some(amount) =>
      var t := s.(covered := s.covered + 1, totalOpening := s.totalOpening + amount);
      if amount < 0 then t.(negative := t.negative + 1)
      else if amount == 0 then t.(zero := t.zero + 1)
      else t.(positive := t.positive + 1)
  }

  lemma CountedOnce(s: BackfillSummary, opening: Option<int>)
    ensures var t := Counted(s, opening);
            && t.covered + t.alreadyCovered == s.covered + s.alreadyCovered + 1
            && t.covered == s.covered + (if opening.None? then 0 else 1)
  {
  }

  lemma BackfillUnrolls(l: LedgerState, ids: seq<Id>, i: nat)
    requires i < |ids| && forall id :: id in ids ==> id in l.accounts
    ensures Backfill(l, ids[i..]) == Backfill(BackfillOne(l, ids[i]), ids[i + 1..])
  {
    assert ids[i..][1..] == ids[i + 1..];
  }

  lemma {:induction false} AscendingLength(ids: set<Id>)
    ensures |Ascending(ids)| == |ids|
  {
    if ids != {} {
      AscendingLength(ids - {Least(ids)});
    }
  }

  // Reconciliation.

  datatype Divergence = Divergence(accountId: Id, balance: int, movements: int, unexplained: int)

  function DivergenceOf(l: LedgerState, id: Id): Divergence
    requires id in l.accounts
  {
    Divergence(id, l.accounts[id].balance, DeltaSum(l.movements, id), MissingOpening(l, id))
  }

  predicate IsDiverged(l: LedgerState, id: Id)
    requires id in l.accounts
  {
    IsCovered(l, id) && MissingOpening(l, id) != 0
  }

  function DivergencesAmong(l: LedgerState, ids: seq<Id>): seq<Divergence>
    requires forall id :: id in ids ==> id in l.accounts
  {
    if ids == [] then []
    else (if IsDiverged(l, ids[0]) then [DivergenceOf(l, ids[0])] else []) + DivergencesAmong(l, ids[1..])
  }

  function Insert(d: Divergence, sorted: seq<Divergence>): seq<Divergence> {
    if sorted == [] || d.unexplained <= sorted[0].unexplained then [d] + sorted
    else [sorted[0]] + Insert(d, sorted[1..])
  }

  /** The stable sort by unexplained amount. */
  function Sorted(ds: seq<Divergence>): seq<Divergence> {
    if ds == [] then [] else Insert(ds[0], Sorted(ds[1..]))
  }

  function Reconcile(l: LedgerState): seq<Divergence> {
    Sorted(DivergencesAmong(l, Ascending(l.accounts.Keys)))
  }

  predicate IsSorted(ds: seq<Divergence>) {
    forall i, j :: 0 <= i < j < |ds| ==> ds[i].unexplained <= ds[j].unexplained
  }

  lemma {:induction false} InsertKeeps(d: Divergence, sorted: seq<Divergence>)
    requires IsSorted(sorted)
    ensures IsSorted(Insert(d, sorted)) && multiset(Insert(d, sorted)) == multiset(sorted) + multiset{d}
  {
    if sorted != [] {
      assert sorted == [sorted[0]] + sorted[1..];
      if d.unexplained > sorted[0].unexplained {
        InsertKeeps(d, sorted[1..]);
        InsertedAreBounded(d, sorted[1..], sorted[0].unexplained);
      }
    }
  }

  lemma {:induction false} InsertedAreBounded(d: Divergence, sorted: seq<Divergence>, low: int)
    requires low <= d.unexplained && forall i :: 0 <= i < |sorted| ==> low <= sorted[i].unexplained
    ensures forall i :: 0 <= i < |Insert(d, sorted)| ==> low <= Insert(d, sorted)[i].unexplained
  {
    if sorted != [] && d.unexplained > sorted[0].unexplained {
      InsertedAreBounded(d, sorted[1..], low);
    }
  }

  lemma {:induction false} SortedIsSorted(ds: seq<Divergence>)
    ensures IsSorted(Sorted(ds)) && multiset(Sorted(ds)) == multiset(ds)
  {
    if ds != [] {
      SortedIsSorted(ds[1..]);
      InsertKeeps(ds[0], Sorted(ds[1..]));
      assert ds == [ds[0]] + ds[1..];
    }
  }

  lemma {:induction false} AmongExactly(l: LedgerState, ids: seq<Id>, d: Divergence)
    requires forall id :: id in ids ==> id in l.accounts
    requires forall i, j :: 0 <= i < j < |ids| ==> ids[i] < ids[j]
    ensures multiset(DivergencesAmong(l, ids))[d]
         == if d.accountId in ids && IsDiverged(l, d.accountId) && d == DivergenceOf(l, d.accountId) then 1 else 0
  {
    hide IsDiverged, DivergenceOf;
    if ids != [] {
      InHeadOrTail(ids, d.accountId);
      AmongExactly(l, ids[1..], d);
      assert DivergenceOf(l, ids[0]).accountId == ids[0] by {
        DivergenceNamesItsAccount(l, ids[0]);
      }
    }
  }

  lemma DivergenceNamesItsAccount(l: LedgerState, id: Id)
    requires id in l.accounts
    ensures DivergenceOf(l, id).accountId == id
  {
  }

  /**
   Reconciliation reports every covered account whose balance differs from the sum of its
   movements, each once and nothing else, ordered by the unexplained amount.
   */
  lemma ReconcileIsExact(l: LedgerState, d: Divergence)
    ensures IsSorted(Reconcile(l))
    ensures multiset(Reconcile(l))[d]
         == if d.accountId in l.accounts && IsDiverged(l, d.accountId) && d == DivergenceOf(l, d.accountId) then 1 else 0
  {
    SortedIsSorted(DivergencesAmong(l, Ascending(l.accounts.Keys)));
    AmongExactly(l, Ascending(l.accounts.Keys), d);
  }

  lemma NoDivergence(l: LedgerState)
    requires forall id :: id in l.accounts ==> !IsDiverged(l, id)
    ensures Reconcile(l) == []
  {
    if Reconcile(l) != [] {
      var d := Reconcile(l)[0];
      assert multiset(Reconcile(l))[d] > 0;
      ReconcileIsExact(l, d);
    }
  }

  /** A ledger grown from nothing never diverges. */
  lemma ReachableLedgersReconcile(ops: seq<Operation>)
    ensures Reconcile(Run(EMPTY, ops)) == []
  {
    hide Run, DeltaSum;
    ReachableLedgersAreSound(ops);
    NoDivergence(Run(EMPTY, ops));
  }

  /**
   After a backfill of any ledger, an account is reported at the end of any run exactly
   when it was covered and already diverged before the backfill.
   */
  lemma BackfilledLedgersReconcile(l: LedgerState, ops: seq<Operation>, id: Id)
    requires id in l.accounts
    ensures var r := Run(BackfillAll(l), ops);
            id in r.accounts && (IsDiverged(r, id) <==> IsDiverged(l, id))
  {
    hide Run, DeltaSum, OpeningCount, BackfillAll;
    BackfillExplainsEveryAccount(l, id);
    RunsKeepTheDrift(BackfillAll(l), ops, id);
  }

  /** A report names the balance, the sum of the movements, and the gap between them, which is not zero. */
  lemma DivergencesSayTheGap(l: LedgerState, i: nat)
    requires i < |Reconcile(l)|
    ensures var d := Reconcile(l)[i];
            && d.accountId in l.accounts && IsCovered(l, d.accountId)
            && d.balance == l.accounts[d.accountId].balance && d.movements == DeltaSum(l.movements, d.accountId)
            && d.unexplained == d.balance - d.movements && d.unexplained != 0
  {
    hide Reconcile, DeltaSum, IsCovered;
    var d := Reconcile(l)[i];
    assert multiset(Reconcile(l))[d] > 0;
    ReconcileIsExact(l, d);
  }
}
