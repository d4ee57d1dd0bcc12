/**
 Detecting bills that come back every month: each row of the newest month is matched with the
 closest similar row of each older month, taken out so that it is used once, and the bill is
 their rounded median.
 */
module FixedBills {
  import opened Results
  import opened Collections

  const BILL_DETECTION_MONTHS := 3
  const MAX_BILL_ENTRIES_PER_CATEGORY_MONTH := 2

  datatype PlainExpense = PlainExpense(day: nat, categoryId: Id, amount: int, pending: bool)

  datatype FixedBill = FixedBill(categoryId: Id, amount: int)

  function Min(a: int, b: int): int { if a <= b then a else b }

  function Max(a: int, b: int): int { if a <= b then b else a }

  function Abs(a: int): (r: int)
    ensures r >= 0 && (r == a || r == -a)
  {
    if a >= 0 then a else -a
  }

  /** The larger is at most one and a half times the smaller, which is positive. */
  predicate IsSimilarAmount(a: int, b: int) {
    Min(a, b) > 0 && 2 * Max(a, b) <= 3 * Min(a, b)
  }

  predicate IsSimilarTo(row: PlainExpense, categoryId: Id, amount: int) {
    row.categoryId == categoryId && IsSimilarAmount(row.amount, amount)
  }

  predicate IsSimilarToAnyBill(row: PlainExpense, bills: seq<FixedBill>) {
    exists bill :: bill in bills && bill.categoryId == row.categoryId && IsSimilarAmount(bill.amount, row.amount)
  }

  // Taking the closest.

  /** The first of the similar rows that lie closest to the amount. */
  predicate IsClosest(pool: seq<PlainExpense>, k: nat, categoryId: Id, amount: int) {
    && k < |pool| && IsSimilarTo(pool[k], categoryId, amount)
    && forall j :: 0 <= j < |pool| && IsSimilarTo(pool[j], categoryId, amount) ==>
         Abs(pool[k].amount - amount) < Abs(pool[j].amount - amount)
         || (Abs(pool[k].amount - amount) == Abs(pool[j].amount - amount) && k <= j)
  }

  lemma ClosestIsUnique(pool: seq<PlainExpense>, j: nat, k: nat, categoryId: Id, amount: int)
    requires IsClosest(pool, j, categoryId, amount) && IsClosest(pool, k, categoryId, amount)
    ensures j == k
  {
    hide IsSimilarTo, Abs;
  }

  function ClosestIndex(pool: seq<PlainExpense>, categoryId: Id, amount: int): (k: Option<nat>)
    ensures k.Some? ==> IsClosest(pool, k.value, categoryId, amount)
    ensures k.None? <==> !HasSimilar(pool, categoryId, amount)
  {
    hide IsSimilarTo, Abs;
    if pool == [] then None
    else
      var n := |pool| - 1;
      var before := ClosestIndex(pool[..n], categoryId, amount);
      if IsSimilarTo(pool[n], categoryId, amount)
         && (before.None? || Abs(pool[n].amount - amount) < Abs(pool[before.value].amount - amount)) then Some(n)
      else before
  }

  /** So the index the scan finds is the one there is: any closest first row is that row. */
  lemma ClosestIndexIsExact(pool: seq<PlainExpense>, k: nat, categoryId: Id, amount: int)
    ensures ClosestIndex(pool, categoryId, amount) == Some(k) <==> IsClosest(pool, k, categoryId, amount)
  {
    hide IsSimilarTo, Abs, ClosestIndex;
    var found := ClosestIndex(pool, categoryId, amount);
    if IsClosest(pool, k, categoryId, amount) && found.Some? {
      ClosestIsUnique(pool, found.value, k, categoryId, amount);
    }
  }

  predicate HasSimilar(pool: seq<PlainExpense>, categoryId: Id, amount: int) {
    exists k :: 0 <= k < |pool| && IsSimilarTo(pool[k], categoryId, amount)
  }

  function Without(pool: seq<PlainExpense>, k: nat): seq<PlainExpense>
    requires k < |pool|
  {
    pool[..k] + pool[k + 1..]
  }

  lemma WithoutLosesOne(pool: seq<PlainExpense>, k: nat)
    requires k < |pool|
    ensures multiset(pool) == multiset(Without(pool, k)) + multiset{pool[k]}
  {
    assert pool == pool[..k] + [pool[k]] + pool[k + 1..];
  }

  datatype Taken = Taken(row: Option<PlainExpense>, rest: seq<PlainExpense>)

  function Take(pool: seq<PlainExpense>, categoryId: Id, amount: int): Taken {
    match ClosestIndex(pool, categoryId, amount)
    case None => Taken(None, pool)
    case Some(k) => Taken(Some(pool[k]), Without(pool, k))
  }

  /** What is taken is similar, comes out of the pool, and nothing else does. */
  lemma TakingMovesOneRow(pool: seq<PlainExpense>, categoryId: Id, amount: int)
    ensures var t := Take(pool, categoryId, amount);
            && (t.row.None? <==> !HasSimilar(pool, categoryId, amount))
            && (t.row.None? ==> t.rest == pool)
            && (t.row.Some? ==> IsSimilarTo(t.row.value, categoryId, amount) && multiset(pool) == multiset(t.rest) + multiset{t.row.value})
  {
    var k := ClosestIndex(pool, categoryId, amount);
    if k.Some? { WithoutLosesOne(pool, k.value); }
  }

  /** What a month's rows are taken from. */
  class Pool {
    var rows: seq<PlainExpense>

    constructor (rows: seq<PlainExpense>)
      ensures this.rows == rows
    {
      this.rows := rows;
    }

    method TakeClosestSimilar(categoryId: Id, amount: int) returns (taken: Option<PlainExpense>)
      modifies this
      ensures taken == Take(old(rows), categoryId, amount).row && rows == Take(old(rows), categoryId, amount).rest
    {
      hide IsSimilarTo, Abs;
      var closestIndex := -1;
      var closestGap := 0;
      for i := 0 to |rows|
        invariant rows == old(rows) && -1 <= closestIndex < i
        invariant closestIndex >= 0 ==> closestGap == Abs(rows[closestIndex].amount - amount)
        invariant ClosestIndex(rows[..i], categoryId, amount) == if closestIndex == -1 then None else Some(closestIndex)
      {
        assert rows[..i + 1][..i] == rows[..i];
        var gap := Abs(rows[i].amount - amount);
        if IsSimilarTo(rows[i], categoryId, amount) && (closestIndex == -1 || gap < closestGap) {
          closestIndex := i;
          closestGap := gap;
        }
      }
      assert rows[..|rows|] == rows;
      if closestIndex == -1 {
        return None;
      }
      taken := Some(rows[closestIndex]);
      rows := Without(rows, closestIndex);
    }
  }

  // Eligible rows.

  function Completed(rows: seq<PlainExpense>): (r: seq<PlainExpense>)
    ensures forall row :: row in r <==> row in rows && !row.pending
  {
    if rows == [] then []
    else (if rows[0].pending then [] else [rows[0]]) + Completed(rows[1..])
  }

  function CountOf(rows: seq<PlainExpense>, categoryId: Id): (n: nat)
    ensures n <= |rows|
    ensures (forall row :: row in rows ==> row.categoryId == categoryId) ==> n == |rows|
    ensures (forall row :: row in rows ==> row.categoryId != categoryId) ==> n == 0
  {
    if rows == [] then 0
    else (if rows[0].categoryId == categoryId then 1 else 0) + CountOf(rows[1..], categoryId)
  }

  function KeepRare(rows: seq<PlainExpense>, among: seq<PlainExpense>): (kept: seq<PlainExpense>)
    ensures forall row :: row in kept <==> row in rows && CountOf(among, row.categoryId) <= MAX_BILL_ENTRIES_PER_CATEGORY_MONTH
  {
    if rows == [] then []
    else
      (if CountOf(among, rows[0].categoryId) <= MAX_BILL_ENTRIES_PER_CATEGORY_MONTH then [rows[0]] else [])
      + KeepRare(rows[1..], among)
  }

  /** Completed rows of categories that appear at most twice in the month. */
  function EligibleRows(month: seq<PlainExpense>): seq<PlainExpense> {
    KeepRare(Completed(month), Completed(month))
  }

  /** Eligible rows are the completed ones, all of a category or none of it, and never more than two. */
  lemma {:induction false} EligibleByCategory(rows: seq<PlainExpense>, among: seq<PlainExpense>, categoryId: Id)
    ensures CountOf(KeepRare(rows, among), categoryId)
         == if CountOf(among, categoryId) <= MAX_BILL_ENTRIES_PER_CATEGORY_MONTH then CountOf(rows, categoryId) else 0
  {
    if rows != [] {
      EligibleByCategory(rows[1..], among, categoryId);
      var kept := KeepRare(rows, among);
      if CountOf(among, rows[0].categoryId) <= MAX_BILL_ENTRIES_PER_CATEGORY_MONTH {
        assert kept[1..] == KeepRare(rows[1..], among);
      } else {
        assert kept == KeepRare(rows[1..], among);
      }
    }
  }

  lemma EligibleRowsAreRare(month: seq<PlainExpense>, categoryId: Id)
    ensures CountOf(EligibleRows(month), categoryId) <= 2
    ensures forall row :: row in EligibleRows(month) ==> row in month && !row.pending
    ensures CountOf(Completed(month), categoryId) <= MAX_BILL_ENTRIES_PER_CATEGORY_MONTH ==>
              CountOf(EligibleRows(month), categoryId) == CountOf(Completed(month), categoryId)
  {
    EligibleByCategory(Completed(month), Completed(month), categoryId);
  }

  // Sorting, and the median.

  predicate IsDescending(rows: seq<PlainExpense>) {
    forall i, j :: 0 <= i < j < |rows| ==> rows[i].amount >= rows[j].amount
  }

  lemma ConsDescending(x: PlainExpense, rest: seq<PlainExpense>)
    requires IsDescending(rest) && forall row :: row in rest ==> x.amount >= row.amount
    ensures IsDescending([x] + rest)
  {
    assert forall i :: 0 <= i < |rest| ==> rest[i] in rest;
  }

  function InsertDescending(row: PlainExpense, sorted: seq<PlainExpense>): (r: seq<PlainExpense>)
    requires IsDescending(sorted)
    ensures multiset(r) == multiset(sorted) + multiset{row}
    ensures forall x :: x in r <==> x == row || x in sorted
    ensures IsDescending(r)
  {
    if sorted == [] then [row]
    else if row.amount >= sorted[0].amount then [row] + sorted
    else
      assert sorted == [sorted[0]] + sorted[1..];
      var rest := InsertDescending(row, sorted[1..]);
      ConsDescending(sorted[0], rest);
      [sorted[0]] + rest
  }

  /** A stable sort by amount, largest first. */
  function SortDescending(rows: seq<PlainExpense>): (r: seq<PlainExpense>)
    ensures multiset(r) == multiset(rows) && IsDescending(r)
  {
    if rows == [] then []
    else
      assert rows == [rows[0]] + rows[1..];
      InsertDescending(rows[0], SortDescending(rows[1..]))
  }

  function WithAmount(rows: seq<PlainExpense>, amount: int): seq<PlainExpense> {
    if rows == [] then []
    else (if rows[0].amount == amount then [rows[0]] else []) + WithAmount(rows[1..], amount)
  }

  lemma TailIsDescending(rows: seq<PlainExpense>)
    requires rows != [] && IsDescending(rows)
    ensures IsDescending(rows[1..])
  {
  }

  lemma WithAmountOfFirst(row: PlainExpense, rest: seq<PlainExpense>, amount: int)
    ensures WithAmount([row] + rest, amount) == (if row.amount == amount then [row] else []) + WithAmount(rest, amount)
  {
    assert ([row] + rest)[1..] == rest;
  }

  lemma {:induction false} InsertingIsStable(row: PlainExpense, sorted: seq<PlainExpense>, amount: int)
    requires IsDescending(sorted)
    ensures WithAmount(InsertDescending(row, sorted), amount) == WithAmount([row] + sorted, amount)
  {
    hide WithAmount, IsDescending;
    if sorted != [] && row.amount < sorted[0].amount {
      TailIsDescending(sorted);
      InsertingIsStable(row, sorted[1..], amount);
      assert sorted == [sorted[0]] + sorted[1..];
      WithAmountOfFirst(row, sorted, amount);
      WithAmountOfFirst(row, sorted[1..], amount);
      WithAmountOfFirst(sorted[0], sorted[1..], amount);
      WithAmountOfFirst(sorted[0], InsertDescending(row, sorted[1..]), amount);
    } else {
      assert InsertDescending(row, sorted) == [row] + sorted;
    }
  }

  /** Rows of one amount stay in the order they came in. */
  lemma {:induction false} SortingIsStable(rows: seq<PlainExpense>, amount: int)
    ensures WithAmount(SortDescending(rows), amount) == WithAmount(rows, amount)
  {
    if rows != [] {
      var sorted := SortDescending(rows[1..]);
      SortingIsStable(rows[1..], amount);
      InsertingIsStable(rows[0], sorted, amount);
      assert ([rows[0]] + sorted)[1..] == sorted;
    }
  }

  predicate IsAscending(values: seq<int>) {
    forall i, j :: 0 <= i < j < |values| ==> values[i] <= values[j]
  }

  lemma ConsAscending(x: int, rest: seq<int>)
    requires IsAscending(rest) && forall v :: v in rest ==> x <= v
    ensures IsAscending([x] + rest)
  {
    assert forall i :: 0 <= i < |rest| ==> rest[i] in rest;
  }

  function InsertAscending(x: int, sorted: seq<int>): (r: seq<int>)
    requires IsAscending(sorted)
    ensures |r| == |sorted| + 1 && multiset(r) == multiset(sorted) + multiset{x}
    ensures forall v :: v in r <==> v == x || v in sorted
    ensures IsAscending(r)
  {
    if sorted == [] then [x]
    else if x <= sorted[0] then [x] + sorted
    else
      assert sorted == [sorted[0]] + sorted[1..];
      var rest := InsertAscending(x, sorted[1..]);
      ConsAscending(sorted[0], rest);
      [sorted[0]] + rest
  }

  function SortAscending(values: seq<int>): (r: seq<int>)
    ensures |r| == |values| && multiset(r) == multiset(values) && IsAscending(r)
    ensures forall v :: v in r <==> v in values
  {
    if values == [] then []
    else
      assert values == [values[0]] + values[1..];
      InsertAscending(values[0], SortAscending(values[1..]))
  }

  /** The median, rounded with halves going up. */
  function RoundedMedian(values: seq<int>): int
    requires values != []
  {
    var sorted := SortAscending(values);
    var middle := |sorted| / 2;
    if |sorted| % 2 == 1 then sorted[middle] else (sorted[middle - 1] + sorted[middle] + 1) / 2
  }

  lemma WithinIsSimilar(low: int, middle: int, high: int)
    requires IsSimilarAmount(low, high) && low <= middle <= high
    ensures IsSimilarAmount(low, middle) && IsSimilarAmount(middle, middle) && IsSimilarAmount(high, middle)
  {
  }

  lemma MiddleIsSimilar(low: int, middle: int, high: int, pivot: int)
    requires low <= middle <= high && (pivot == low || pivot == middle || pivot == high)
    requires IsSimilarAmount(low, pivot) && IsSimilarAmount(middle, pivot) && IsSimilarAmount(high, pivot)
    ensures IsSimilarAmount(low, middle) && IsSimilarAmount(middle, middle) && IsSimilarAmount(high, middle)
  {
  }

  /** Two or three amounts similar to one of them are all similar to their rounded median. */
  lemma MedianIsSimilarToAll(values: seq<int>, pivot: int)
    requires 2 <= |values| <= 3 && pivot in values
    requires forall v :: v in values ==> IsSimilarAmount(v, pivot)
    ensures forall v :: v in values ==> IsSimilarAmount(v, RoundedMedian(values))
  {
    hide IsSimilarAmount, SortAscending;
    var s := SortAscending(values);
    assert s[0] in s && s[1] in s && s[|s| - 1] in s && pivot in s;
    if |s| == 3 {
      MiddleIsSimilar(s[0], s[1], s[2], pivot);
    } else {
      PairIsSimilar(s[0], s[1], pivot);
      WithinIsSimilar(s[0], (s[0] + s[1] + 1) / 2, s[1]);
    }
    forall v | v in values
      ensures IsSimilarAmount(v, RoundedMedian(values))
    {
      assert v in s;
    }
  }

  lemma PairIsSimilar(low: int, high: int, pivot: int)
    requires low <= high && (pivot == low || pivot == high)
    requires IsSimilarAmount(low, pivot) && IsSimilarAmount(high, pivot)
    ensures IsSimilarAmount(low, high)
  {
  }

  // Detection.

  /** A row of the newest month with the rows it was matched with. */
  datatype Match = Match(row: PlainExpense, matches: seq<PlainExpense>)

  function AmountsOf(rows: seq<PlainExpense>): seq<int> {
    seq(|rows|, i requires 0 <= i < |rows| => rows[i].amount)
  }

  function Contributors(m: Match): seq<PlainExpense> {
    [m.row] + m.matches
  }

  function BillOf(m: Match): FixedBill {
    FixedBill(m.row.categoryId, RoundedMedian(AmountsOf(Contributors(m))))
  }

  function BillsOf(found: seq<Match>): seq<FixedBill> {
    seq(|found|, i requires 0 <= i < |found| => BillOf(found[i]))
  }

  datatype Round = Round(matches: seq<PlainExpense>, pools: seq<seq<PlainExpense>>)

  /** Takes the closest similar row out of each pool that has one. */
  function TakeFromEach(pools: seq<seq<PlainExpense>>, row: PlainExpense): (r: Round)
    ensures |r.pools| == |pools| && |r.matches| <= |pools|
  {
    if pools == [] then Round([], [])
    else
      var n := |pools| - 1;
      var before := TakeFromEach(pools[..n], row);
      var taken := Take(pools[n], row.categoryId, row.amount);
      Round(before.matches + (if taken.row.Some? then [taken.row.value] else []), before.pools + [taken.rest])
  }

  datatype Detection = Detection(found: seq<Match>, pools: seq<seq<PlainExpense>>)

  function Detect(candidates: seq<PlainExpense>, pools: seq<seq<PlainExpense>>): (r: Detection)
    ensures |r.pools| == |pools|
  {
    if candidates == [] then Detection([], pools)
    else
      var n := |candidates| - 1;
      var before := Detect(candidates[..n], pools);
      var round := TakeFromEach(before.pools, candidates[n]);
      Detection(before.found + (if round.matches == [] then [] else [Match(candidates[n], round.matches)]), round.pools)
  }

  function Newest(basis: seq<seq<PlainExpense>>): seq<PlainExpense> {
    if basis == [] then [] else SortDescending(EligibleRows(basis[0]))
  }

  /** The months after the newest, up to the number detection looks at. */
  function OlderPools(basis: seq<seq<PlainExpense>>): (pools: seq<seq<PlainExpense>>)
    ensures |pools| <= BILL_DETECTION_MONTHS - 1
  {
    var n := if |basis| <= BILL_DETECTION_MONTHS then |basis| else BILL_DETECTION_MONTHS;
    if n == 0 then [] else seq(n - 1, i requires 0 <= i < n - 1 => EligibleRows(basis[i + 1]))
  }

  function Found(basis: seq<seq<PlainExpense>>): seq<Match> {
    Detect(Newest(basis), OlderPools(basis)).found
  }

  method TakeRound(pools: seq<seq<PlainExpense>>, row: PlainExpense) returns (matches: seq<PlainExpense>, rest: seq<seq<PlainExpense>>)
    ensures Round(matches, rest) == TakeFromEach(pools, row)
  {
    hide Take;
    matches, rest := [], [];
    for i := 0 to |pools|
      invariant Round(matches, rest) == TakeFromEach(pools[..i], row)
    {
      assert pools[..i + 1][..i] == pools[..i];
      var pool := new Pool(pools[i]);
      var taken := pool.TakeClosestSimilar(row.categoryId, row.amount);
      if taken.Some? { matches := matches + [taken.value]; }
      rest := rest + [pool.rows];
    }
    assert pools[..|pools|] == pools;
  }

  lemma NothingToDetect(basis: seq<seq<PlainExpense>>)
    requires basis == []
    ensures Found(basis) == []
  {
  }

  lemma DetectNone(candidates: seq<PlainExpense>, pools: seq<seq<PlainExpense>>)
    ensures Detect(candidates[..0], pools) == Detection([], pools)
  {
  }

  lemma DetectUnrolls(candidates: seq<PlainExpense>, i: nat, pools: seq<seq<PlainExpense>>)
    requires i < |candidates|
    ensures var before := Detect(candidates[..i], pools);
            var round := TakeFromEach(before.pools, candidates[i]);
            Detect(candidates[..i + 1], pools)
            == Detection(before.found + (if round.matches == [] then [] else [Match(candidates[i], round.matches)]), round.pools)
  {
    assert candidates[..i + 1][..i] == candidates[..i];
  }

  method DetectFixedBills(basis: seq<seq<PlainExpense>>) returns (bills: seq<FixedBill>)
    ensures bills == BillsOf(Found(basis))
  {
    hide EligibleRows, SortDescending, TakeFromEach, BillOf, Detect, OlderPools, Newest;
    if basis == [] {
      NothingToDetect(basis);
      return [];
    }
    var candidates, pools := Newest(basis), OlderPools(basis);
    bills := [];
    ghost var found: seq<Match> := [];
    DetectNone(candidates, pools);
    for i := 0 to |candidates|
      invariant Detection(found, pools) == Detect(candidates[..i], OlderPools(basis))
      invariant bills == BillsOf(found)
    {
      DetectUnrolls(candidates, i, OlderPools(basis));
      var matches;
      matches, pools := TakeRound(pools, candidates[i]);
      if matches != [] {
        found := found + [Match(candidates[i], matches)];
        bills := bills + [BillOf(Match(candidates[i], matches))];
      }
    }
    assert candidates[..|candidates|] == candidates;
  }

  // Every contributor is close to its bill.

  predicate AreMatches(m: Match) {
    1 <= |m.matches| <= BILL_DETECTION_MONTHS - 1
    && forall x :: x in m.matches ==> IsSimilarTo(x, m.row.categoryId, m.row.amount)
  }

  lemma {:induction false} RoundsAreSimilar(pools: seq<seq<PlainExpense>>, row: PlainExpense)
    ensures forall x :: x in TakeFromEach(pools, row).matches ==> IsSimilarTo(x, row.categoryId, row.amount)
  {
    hide IsSimilarTo;
    if pools != [] {
      var n := |pools| - 1;
      RoundsAreSimilar(pools[..n], row);
      TakingMovesOneRow(pools[n], row.categoryId, row.amount);
    }
  }

  lemma {:induction false} DetectedAreMatches(candidates: seq<PlainExpense>, pools: seq<seq<PlainExpense>>)
    requires |pools| <= BILL_DETECTION_MONTHS - 1
    ensures forall i :: 0 <= i < |Detect(candidates, pools).found| ==> AreMatches(Detect(candidates, pools).found[i])
  {
    hide TakeFromEach, IsSimilarTo;
    if candidates != [] {
      var n := |candidates| - 1;
      DetectedAreMatches(candidates[..n], pools);
      RoundsAreSimilar(Detect(candidates[..n], pools).pools, candidates[n]);
    }
  }

  lemma ContributorsAreSimilar(m: Match)
    requires AreMatches(m)
    ensures forall x :: x in Contributors(m) ==> x.categoryId == BillOf(m).categoryId && IsSimilarAmount(BillOf(m).amount, x.amount)
  {
    hide RoundedMedian;
    var rows := Contributors(m);
    var values := AmountsOf(rows);
    assert rows[0] == m.row && rows[1] == m.matches[0] && m.matches[0] in m.matches;
    assert values[0] == m.row.amount;
    assert values[1] == m.matches[0].amount;
    forall v | v in values
      ensures IsSimilarAmount(v, m.row.amount)
    {
      var i :| 0 <= i < |values| && values[i] == v;
      if i > 0 { assert rows[i] == m.matches[i - 1] && m.matches[i - 1] in m.matches; }
    }
    MedianIsSimilarToAll(values, m.row.amount);
    forall x | x in rows
      ensures x.categoryId == m.row.categoryId && IsSimilarAmount(RoundedMedian(values), x.amount)
    {
      var i :| 0 <= i < |rows| && rows[i] == x;
      assert values[i] == x.amount;
      assert x.amount in values;
      if i > 0 { assert x == m.matches[i - 1]; }
    }
  }

  /**
   Every row that contributes to a detected bill, of the newest month or an older one, is similar
   to the bill that is stored, so the estimate of variable spending leaves it out.
   */
  lemma ContributorsAreExcluded(basis: seq<seq<PlainExpense>>, i: nat, row: PlainExpense)
    requires i < |Found(basis)| && row in Contributors(Found(basis)[i])
    ensures IsSimilarToAnyBill(row, BillsOf(Found(basis)))
  {
    hide Detect, Newest, OlderPools, IsSimilarAmount, BillOf;
    DetectedAreMatches(Newest(basis), OlderPools(basis));
    ContributorsAreSimilar(Found(basis)[i]);
    var bill := BillsOf(Found(basis))[i];
    assert bill in BillsOf(Found(basis));
  }

  // No older row contributes twice.

  function AllMatched(found: seq<Match>): multiset<PlainExpense> {
    if found == [] then multiset{} else AllMatched(found[..|found| - 1]) + multiset(found[|found| - 1].matches)
  }

  function AllRows(pools: seq<seq<PlainExpense>>): multiset<PlainExpense> {
    if pools == [] then multiset{} else AllRows(pools[..|pools| - 1]) + multiset(pools[|pools| - 1])
  }

  lemma {:induction false} RoundsMoveRows(pools: seq<seq<PlainExpense>>, row: PlainExpense)
    ensures var r := TakeFromEach(pools, row); AllRows(pools) == AllRows(r.pools) + multiset(r.matches)
  {
    hide Take;
    if pools != [] {
      var n := |pools| - 1;
      RoundsMoveRows(pools[..n], row);
      TakingMovesOneRow(pools[n], row.categoryId, row.amount);
      assert TakeFromEach(pools, row).pools[..n] == TakeFromEach(pools[..n], row).pools;
    }
  }

  /** Rows of older months are moved into bills, never copied: each is used at most once. */
  lemma {:induction false} DetectionMovesRows(candidates: seq<PlainExpense>, pools: seq<seq<PlainExpense>>)
    ensures var r := Detect(candidates, pools); AllRows(pools) == AllRows(r.pools) + AllMatched(r.found)
  {
    hide TakeFromEach, AllRows, Detect, AllMatched;
    if candidates == [] {
      DetectNone(candidates, pools);
      NothingMatched();
    } else {
      var n := |candidates| - 1;
      var before := Detect(candidates[..n], pools);
      DetectionMovesRows(candidates[..n], pools);
      DetectUnrolls(candidates, n, pools);
      assert candidates[..n + 1] == candidates && before.found + [] == before.found;
      RoundsMoveRows(before.pools, candidates[n]);
      MatchedAppend(before.found, Match(candidates[n], TakeFromEach(before.pools, candidates[n]).matches));
    }
  }

  lemma NothingMatched()
    ensures AllMatched([]) == multiset{}
  {
  }

  lemma MatchedAppend(found: seq<Match>, m: Match)
    ensures AllMatched(found + [m]) == AllMatched(found) + multiset(m.matches)
  {
    assert (found + [m])[..|found|] == found;
  }

  // What is still due.

  /** A bill a current expense cancels, with that expense. */
  datatype Cancelled = Cancelled(bill: FixedBill, row: PlainExpense)

  datatype Settlement = Settlement(due: seq<FixedBill>, cancelled: seq<Cancelled>, pool: seq<PlainExpense>)

  function Settle(bills: seq<FixedBill>, current: seq<PlainExpense>): Settlement {
    if bills == [] then Settlement([], [], current)
    else
      var n := |bills| - 1;
      var before := Settle(bills[..n], current);
      var taken := Take(before.pool, bills[n].categoryId, bills[n].amount);
      match taken.row
      case None => before.(due := before.due + [bills[n]])
      case Some(row) => Settlement(before.due, before.cancelled + [Cancelled(bills[n], row)], taken.rest)
  }

  function Total(bills: seq<FixedBill>): int {
    if bills == [] then 0 else Total(bills[..|bills| - 1]) + bills[|bills| - 1].amount
  }

  function TotalCancelled(cancelled: seq<Cancelled>): int {
    if cancelled == [] then 0
    else TotalCancelled(cancelled[..|cancelled| - 1]) + cancelled[|cancelled| - 1].bill.amount
  }

  function RowsCancelling(cancelled: seq<Cancelled>): multiset<PlainExpense> {
    if cancelled == [] then multiset{}
    else RowsCancelling(cancelled[..|cancelled| - 1]) + multiset{cancelled[|cancelled| - 1].row}
  }

  method SumFixedBillsDue(bills: seq<FixedBill>, currentMonthExpenses: seq<PlainExpense>) returns (total: int)
    ensures total == Total(Settle(bills, currentMonthExpenses).due)
  {
    hide Take;
    var pool := new Pool(currentMonthExpenses);
    total := 0;
    for i := 0 to |bills|
      invariant pool.rows == Settle(bills[..i], currentMonthExpenses).pool
      invariant total == Total(Settle(bills[..i], currentMonthExpenses).due)
    {
      assert bills[..i + 1][..i] == bills[..i];
      ghost var before := Settle(bills[..i], currentMonthExpenses);
      var taken := pool.TakeClosestSimilar(bills[i].categoryId, bills[i].amount);
      if taken.None? {
        assert (before.due + [bills[i]])[..|before.due|] == before.due;
        total := total + bills[i].amount;
        TakingMovesOneRow(before.pool, bills[i].categoryId, bills[i].amount);
      }
    }
    assert bills[..|bills|] == bills;
  }

  /** Due and cancelled bills are all the bills, and each current expense cancels at most one, similar to it. */
  lemma {:induction false} DueAndCancelledAreAllBills(bills: seq<FixedBill>, current: seq<PlainExpense>)
    ensures var s := Settle(bills, current);
            && Total(s.due) + TotalCancelled(s.cancelled) == Total(bills)
            && |s.due| + |s.cancelled| == |bills|
            && multiset(current) == multiset(s.pool) + RowsCancelling(s.cancelled)
            && forall c :: c in s.cancelled ==> IsSimilarTo(c.row, c.bill.categoryId, c.bill.amount)
  {
    hide Take, IsSimilarTo;
    if bills != [] {
      var n := |bills| - 1;
      var before, s := Settle(bills[..n], current), Settle(bills, current);
      DueAndCancelledAreAllBills(bills[..n], current);
      TakingMovesOneRow(before.pool, bills[n].categoryId, bills[n].amount);
      if |s.due| > |before.due| {
        assert s.due[..|before.due|] == before.due;
      } else {
        assert s.cancelled[..|before.cancelled|] == before.cancelled;
      }
    }
  }

  lemma SettleUnrolls(bills: seq<FixedBill>, current: seq<PlainExpense>)
    requires bills != []
    ensures var n := |bills| - 1;
            var before := Settle(bills[..n], current);
            var taken := Take(before.pool, bills[n].categoryId, bills[n].amount);
            Settle(bills, current)
            == if taken.row.None? then before.(due := before.due + [bills[n]])
               else Settlement(before.due, before.cancelled + [Cancelled(bills[n], taken.row.value)], taken.rest)
  {
    hide Take;
  }

  lemma RestIsOfThePool(pool: seq<PlainExpense>, taken: Taken, categoryId: Id, amount: int)
    requires taken.row.Some? ==> multiset(pool) == multiset(taken.rest) + multiset{taken.row.value}
    requires taken.row.None? ==> taken.rest == pool
    ensures HasSimilar(taken.rest, categoryId, amount) ==> HasSimilar(pool, categoryId, amount)
  {
    hide IsSimilarTo;
    if HasSimilar(taken.rest, categoryId, amount) {
      var k :| 0 <= k < |taken.rest| && IsSimilarTo(taken.rest[k], categoryId, amount);
      assert taken.rest[k] in multiset(taken.rest) && taken.rest[k] in multiset(pool);
      var j :| 0 <= j < |pool| && pool[j] == taken.rest[k];
    }
  }

  /**
   The matching leaves nothing over on both sides: no expense that cancelled nothing is similar to
   a bill that stays due, and every bill, in order, is either due or cancelled.
   */
  lemma {:induction false} NothingLeftCancelsADueBill(bills: seq<FixedBill>, current: seq<PlainExpense>)
    ensures var s := Settle(bills, current);
            && (forall bill :: bill in s.due ==> bill in bills && !HasSimilar(s.pool, bill.categoryId, bill.amount))
            && (forall c :: c in s.cancelled ==> c.bill in bills)
            && (forall bill :: bill in bills ==> bill in s.due || exists c :: c in s.cancelled && c.bill == bill)
  {
    hide Take, HasSimilar, Settle;
    if bills == [] {
      NothingToSettle(current);
    } else {
      var n := |bills| - 1;
      var before, s := Settle(bills[..n], current), Settle(bills, current);
      var taken := Take(before.pool, bills[n].categoryId, bills[n].amount);
      NothingLeftCancelsADueBill(bills[..n], current);
      SettleUnrolls(bills, current);
      TakingMovesOneRow(before.pool, bills[n].categoryId, bills[n].amount);
      forall bill | bill in before.due
        ensures !HasSimilar(s.pool, bill.categoryId, bill.amount)
      {
        RestIsOfThePool(before.pool, taken, bill.categoryId, bill.amount);
      }
      assert bills == bills[..n] + [bills[n]];
      forall bill | bill in bills
        ensures bill in s.due || exists c :: c in s.cancelled && c.bill == bill
      {
        EveryBillIsPlaced(before, s, bills[..n], bills[n], bill);
      }
    }
  }

  lemma NothingToSettle(current: seq<PlainExpense>)
    ensures Settle([], current) == Settlement([], [], current)
  {
  }

  lemma EveryBillIsPlaced(before: Settlement, s: Settlement, earlier: seq<FixedBill>, last: FixedBill, bill: FixedBill)
    requires bill in earlier || bill == last
    requires forall b :: b in earlier ==> b in before.due || exists c :: c in before.cancelled && c.bill == b
    requires (s.due == before.due + [last] && s.cancelled == before.cancelled)
             || (s.due == before.due && |s.cancelled| == |before.cancelled| + 1 && s.cancelled[..|before.cancelled|] == before.cancelled
                 && s.cancelled[|before.cancelled|].bill == last)
    ensures bill in s.due || exists c :: c in s.cancelled && c.bill == bill
  {
    if bill in earlier && bill !in before.due {
      var c :| c in before.cancelled && c.bill == bill;
      assert c in s.cancelled;
    } else if bill == last && s.due == before.due {
      assert s.cancelled[|before.cancelled|] in s.cancelled;
    }
  }

  // The rules in numbers.

  /** Similar amounts are positive, and neither is more than one and a half times the other. */
  lemma SimilarIsWithinOneAndAHalf(a: int, b: int)
    ensures IsSimilarAmount(a, b) <==> a > 0 && b > 0 && (a as real) / (b as real) <= 1.5 && (b as real) / (a as real) <= 1.5
    ensures IsSimilarAmount(a, b) == IsSimilarAmount(b, a)
  {
    if a > 0 && b > 0 {
      RatioIsAtMost(a, b);
      RatioIsAtMost(b, a);
    }
  }

  lemma RatioIsAtMost(a: int, b: int)
    requires b > 0
    ensures (a as real) / (b as real) <= 1.5 <==> 2 * a <= 3 * b
  {
    var y := b as real;
    var q := a as real / y;
    assert q * y == a as real;
    ScalingKeepsOrder(q, 1.5, y);
    assert 2 * a <= 3 * b <==> 2.0 * (a as real) <= 3.0 * y by {
      assert (2 * a) as real == 2.0 * (a as real) && (3 * b) as real == 3.0 * y;
    }
  }

  lemma ScalingKeepsOrder(p: real, q: real, y: real)
    requires y > 0.0
    ensures p <= q <==> p * y <= q * y
  {
    var gap := q - p;
    assert q * y == p * y + gap * y;
    if gap >= 0.0 { assert gap * y >= 0.0; } else { assert gap * y < 0.0; }
  }

  /** The median of two is their mean, a half going up; of three, the one with no more than one on either side. */
  lemma MedianOfTwoOrThree(values: seq<int>)
    ensures |values| == 2 ==> 0 <= 2 * RoundedMedian(values) - (values[0] + values[1]) <= 1
    ensures |values| == 3 ==>
              var m := RoundedMedian(values);
              m in values && ((values[0] <= m && m <= values[1]) || (values[1] <= m && m <= values[0])
                              || (values[0] <= m && m <= values[2]) || (values[2] <= m && m <= values[0])
                              || (values[1] <= m && m <= values[2]) || (values[2] <= m && m <= values[1]))
    ensures |values| == 3 ==>
              var m := RoundedMedian(values);
              !(values[0] < m && values[1] < m) && !(values[0] < m && values[2] < m) && !(values[1] < m && values[2] < m)
              && !(values[0] > m && values[1] > m) && !(values[0] > m && values[2] > m) && !(values[1] > m && values[2] > m)
  {
    hide SortAscending;
    if |values| == 2 {
      SortedPair(values);
    } else if |values| == 3 {
      SortedTriple(values);
    }
  }

  lemma InsertedIntoOne(x: int, q: int)
    ensures InsertAscending(x, [q]) == if x <= q then [x, q] else [q, x]
  {
    assert [q][1..] == [];
  }

  lemma SortedOne(values: seq<int>)
    requires |values| == 1
    ensures SortAscending(values) == [values[0]]
  {
    assert values[1..] == [];
  }

  lemma SortedPair(values: seq<int>)
    requires |values| == 2
    ensures SortAscending(values) == [Min(values[0], values[1]), Max(values[0], values[1])]
  {
    SortedOne(values[1..]);
    assert SortAscending(values[1..]) == [values[1]];
    hide InsertAscending;
    InsertedIntoOne(values[0], values[1]);
  }

  lemma InsertedIntoPair(x: int, p: int, q: int)
    requires p <= q
    ensures InsertAscending(x, [p, q]) == if x <= p then [x, p, q] else if x <= q then [p, x, q] else [p, q, x]
  {
    assert [p, q][1..] == [q];
    InsertedIntoOne(x, q);
  }

  lemma SortedTriple(values: seq<int>)
    requires |values| == 3
    ensures var low, high := Min(values[1], values[2]), Max(values[1], values[2]);
            SortAscending(values) == if values[0] <= low then [values[0], low, high]
                                     else if values[0] <= high then [low, values[0], high] else [low, high, values[0]]
  {
    SortedPair(values[1..]);
    var low, high := Min(values[1], values[2]), Max(values[1], values[2]);
    assert SortAscending(values[1..]) == [low, high];
    hide InsertAscending;
    InsertedIntoPair(values[0], low, high);
  }

  /** No category of a month has more than two eligible rows, and only three months are looked at. */
  lemma LimitsOfDetection(basis: seq<seq<PlainExpense>>, categoryId: Id, i: nat)
    ensures i < |basis| ==> CountOf(EligibleRows(basis[i]), categoryId) <= 2
    ensures |OlderPools(basis)| == (if |basis| <= 1 then 0 else if |basis| == 2 then 1 else 2)
    ensures forall k :: 0 <= k < |OlderPools(basis)| ==> OlderPools(basis)[k] == EligibleRows(basis[k + 1])
  {
    hide EligibleRows;
    if i < |basis| { EligibleRowsAreRare(basis[i], categoryId); }
  }

  // Where the rows of a bill come from, and that none is missed.

  lemma {:induction false} RoundsOnlyShrink(pools: seq<seq<PlainExpense>>, row: PlainExpense)
    ensures var r := TakeFromEach(pools, row);
            && |r.pools| == |pools|
            && (forall k, x :: 0 <= k < |pools| && x in r.pools[k] ==> x in pools[k])
            && (forall x :: x in r.matches ==> exists k :: 0 <= k < |pools| && x in pools[k])
  {
    hide Take;
    if pools != [] {
      var n := |pools| - 1;
      RoundsOnlyShrink(pools[..n], row);
      RestIsInThePool(pools[n], row.categoryId, row.amount);
      var before, r := TakeFromEach(pools[..n], row), TakeFromEach(pools, row);
      forall k, x | 0 <= k < |pools| && x in r.pools[k]
        ensures x in pools[k]
      {
        if k < n { assert r.pools[k] == before.pools[k] && pools[..n][k] == pools[k]; }
      }
      forall x | x in r.matches
        ensures exists k :: 0 <= k < |pools| && x in pools[k]
      {
        if x in before.matches {
          var k :| 0 <= k < |pools[..n]| && x in pools[..n][k];
          assert pools[..n][k] == pools[k];
        }
      }
    }
  }

  lemma RestIsInThePool(pool: seq<PlainExpense>, categoryId: Id, amount: int)
    ensures var t := Take(pool, categoryId, amount);
            (forall x :: x in t.rest ==> x in pool) && (t.row.Some? ==> t.row.value in pool)
  {
    hide IsSimilarTo;
    TakingMovesOneRow(pool, categoryId, amount);
    var t := Take(pool, categoryId, amount);
    forall x | x in t.rest
      ensures x in pool
    {
      assert x in multiset(t.rest);
      assert x in multiset(pool);
    }
  }

  predicate AnyHasSimilar(pools: seq<seq<PlainExpense>>, categoryId: Id, amount: int) {
    exists k :: 0 <= k < |pools| && HasSimilar(pools[k], categoryId, amount)
  }

  lemma AnyInParts(pools: seq<seq<PlainExpense>>, categoryId: Id, amount: int)
    requires pools != []
    ensures AnyHasSimilar(pools, categoryId, amount)
            <==> AnyHasSimilar(pools[..|pools| - 1], categoryId, amount) || HasSimilar(pools[|pools| - 1], categoryId, amount)
  {
    hide HasSimilar;
    var n := |pools| - 1;
    if AnyHasSimilar(pools[..n], categoryId, amount) {
      var k :| 0 <= k < n && HasSimilar(pools[..n][k], categoryId, amount);
      assert HasSimilar(pools[k], categoryId, amount);
    }
    if AnyHasSimilar(pools, categoryId, amount) && !HasSimilar(pools[n], categoryId, amount) {
      var k :| 0 <= k < |pools| && HasSimilar(pools[k], categoryId, amount);
      assert pools[..n][k] == pools[k];
    }
  }

  /** A round takes a row exactly when some pool has a similar one. */
  lemma {:induction false} RoundsTakeWhereTheyCan(pools: seq<seq<PlainExpense>>, row: PlainExpense)
    ensures TakeFromEach(pools, row).matches != [] <==> AnyHasSimilar(pools, row.categoryId, row.amount)
    ensures TakeFromEach(pools, row).matches == [] ==> TakeFromEach(pools, row).pools == pools
  {
    hide Take, HasSimilar, AnyHasSimilar;
    if pools == [] {
      NothingSimilar(row.categoryId, row.amount);
    } else {
      var n := |pools| - 1;
      RoundsTakeWhereTheyCan(pools[..n], row);
      TakingMovesOneRow(pools[n], row.categoryId, row.amount);
      AnyInParts(pools, row.categoryId, row.amount);
    }
  }

  lemma NothingSimilar(categoryId: Id, amount: int)
    ensures !AnyHasSimilar([], categoryId, amount)
  {
  }

  /** A candidate is billed exactly when some older month still has a similar row for it. */
  lemma CandidatesAreBilledExactly(candidates: seq<PlainExpense>, i: nat, pools: seq<seq<PlainExpense>>)
    requires i < |candidates|
    ensures var before, after := Detect(candidates[..i], pools), Detect(candidates[..i + 1], pools);
            if AnyHasSimilar(before.pools, candidates[i].categoryId, candidates[i].amount)
            then |after.found| == |before.found| + 1 && after.found[..|before.found|] == before.found
                 && after.found[|before.found|].row == candidates[i] && after.found[|before.found|].matches != []
            else after == before
  {
    hide TakeFromEach, AnyHasSimilar, Detect;
    DetectUnrolls(candidates, i, pools);
    RoundsTakeWhereTheyCan(Detect(candidates[..i], pools).pools, candidates[i]);
  }

  /** Every row of a bill is an eligible one: the first of the newest month, the others of the months looked at before it. */
  lemma {:induction false} FoundRowsComeFromTheirMonths(candidates: seq<PlainExpense>, pools: seq<seq<PlainExpense>>)
    ensures var r := Detect(candidates, pools);
            && (forall k, x :: 0 <= k < |pools| && x in r.pools[k] ==> x in pools[k])
            && (forall i :: 0 <= i < |r.found| ==> ComesFrom(r.found[i], candidates, pools))
  {
    hide TakeFromEach, ComesFrom, Detect;
    if candidates == [] {
      DetectNone(candidates, pools);
      assert candidates[..0] == candidates;
    } else {
      var n := |candidates| - 1;
      var before := Detect(candidates[..n], pools);
      FoundRowsComeFromTheirMonths(candidates[..n], pools);
      DetectUnrolls(candidates, n, pools);
      assert candidates[..n + 1] == candidates;
      RoundsOnlyShrink(before.pools, candidates[n]);
      NewMatchComesFrom(before, candidates, n, pools);
      forall i | 0 <= i < |before.found|
        ensures ComesFrom(before.found[i], candidates, pools)
      {
        MoreCandidates(before.found[i], candidates, n, pools);
      }
    }
  }

  lemma FoundRowComesFrom(candidates: seq<PlainExpense>, pools: seq<seq<PlainExpense>>, i: nat)
    requires i < |Detect(candidates, pools).found|
    ensures ComesFrom(Detect(candidates, pools).found[i], candidates, pools)
  {
    hide Detect, ComesFrom;
    FoundRowsComeFromTheirMonths(candidates, pools);
  }

  predicate ComesFrom(m: Match, candidates: seq<PlainExpense>, pools: seq<seq<PlainExpense>>) {
    m.row in candidates && forall x :: x in m.matches ==> exists k :: 0 <= k < |pools| && x in pools[k]
  }

  lemma MoreCandidates(m: Match, candidates: seq<PlainExpense>, n: nat, pools: seq<seq<PlainExpense>>)
    requires n <= |candidates| && ComesFrom(m, candidates[..n], pools)
    ensures ComesFrom(m, candidates, pools)
  {
  }

  lemma NewMatchComesFrom(before: Detection, candidates: seq<PlainExpense>, n: nat, pools: seq<seq<PlainExpense>>)
    requires n < |candidates| && |before.pools| == |pools|
    requires forall k, x :: 0 <= k < |pools| && x in before.pools[k] ==> x in pools[k]
    ensures ComesFrom(Match(candidates[n], TakeFromEach(before.pools, candidates[n]).matches), candidates, pools)
  {
    hide TakeFromEach;
    RoundsOnlyShrink(before.pools, candidates[n]);
  }

  /** The bill of a match is of its row's category. */
  lemma BillsKeepTheCategory(basis: seq<seq<PlainExpense>>, i: nat)
    requires basis != [] && i < |Found(basis)|
    ensures |BillsOf(Found(basis))| == |Found(basis)|
    ensures BillsOf(Found(basis))[i].categoryId == Found(basis)[i].row.categoryId
    ensures Found(basis)[i].row in Newest(basis)
    ensures multiset(Newest(basis)) == multiset(EligibleRows(basis[0])) && IsDescending(Newest(basis))
  {
    hide Detect, EligibleRows, SortDescending, OlderPools, Newest;
    NewestIsTheNewestMonth(basis);
    FoundRowComesFrom(Newest(basis), OlderPools(basis), i);
  }

  lemma NewestIsTheNewestMonth(basis: seq<seq<PlainExpense>>)
    requires basis != []
    ensures multiset(Newest(basis)) == multiset(EligibleRows(basis[0])) && IsDescending(Newest(basis))
  {
  }
}
