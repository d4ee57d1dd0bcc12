/** The daily series of a report, computed backward from what is stored today. */
module BalanceEvolution {
  import opened Results
  import opened Collections
  import opened CivilCalendar
  import opened PlainDates
  import opened Accounts
  import opened Transactions
  import opened Ledger
  import opened LedgerRuns
  import opened LedgerTheorems
  import opened NetWorth

  datatype PeriodRow = PeriodRow(
    kind: TransactionType,
    source: AccountKind,
    destination: Option<AccountKind>,
    amount: int,
    date: Date
  )

  type TypeResolver = (TransactionType, AccountKind, Option<AccountKind>) -> TransactionType

  function ResolveNetWorthType(kind: TransactionType, source: AccountKind, destination: Option<AccountKind>): TransactionType {
    kind
  }

  function ResolveGeneralType(kind: TransactionType, source: AccountKind, destination: Option<AccountKind>): (resolved: TransactionType)
    ensures kind != TRANSFER ==> resolved == kind
  {
    if kind == TRANSFER && (destination == Some(CreditCard) || destination == Some(Investment)) then EXPENSE
    else if kind == TRANSFER && source == Investment then INCOME
    else kind
  }

  function ResolveInvestmentType(kind: TransactionType, source: AccountKind, destination: Option<AccountKind>): (resolved: TransactionType)
    ensures kind != TRANSFER ==> resolved == kind
  {
    if kind == TRANSFER && destination == Some(Investment) then INCOME
    else if kind == TRANSFER && source == Investment then EXPENSE
    else kind
  }

  function Resolved(row: PeriodRow, resolve: TypeResolver): TransactionType {
    resolve(row.kind, row.source, row.destination)
  }

  // What rows add up to.

  function NetOf(row: PeriodRow, resolve: TypeResolver): int {
    match Resolved(row, resolve)
    case INCOME => row.amount
    case EXPENSE => -row.amount
    case TRANSFER => 0
  }

  function NetEffect(period: seq<PeriodRow>, resolve: TypeResolver): int {
    if period == [] then 0
    else NetEffect(period[..|period| - 1], resolve) + NetOf(period[|period| - 1], resolve)
  }

  /** The amounts of one resolved type on one day. */
  function OnDay(period: seq<PeriodRow>, resolve: TypeResolver, kind: TransactionType, day: int): int {
    if period == [] then 0
    else
      var last := period[|period| - 1];
      OnDay(period[..|period| - 1], resolve, kind, day)
      + (if last.date == day && Resolved(last, resolve) == kind then last.amount else 0)
  }

  function EffectUpTo(period: seq<PeriodRow>, resolve: TypeResolver, day: int): int {
    if period == [] then 0
    else
      var last := period[|period| - 1];
      EffectUpTo(period[..|period| - 1], resolve, day) + (if last.date <= day then NetOf(last, resolve) else 0)
  }

  lemma {:induction false} OneMoreDay(period: seq<PeriodRow>, resolve: TypeResolver, day: int)
    ensures EffectUpTo(period, resolve, day)
         == EffectUpTo(period, resolve, day - 1) + OnDay(period, resolve, INCOME, day) - OnDay(period, resolve, EXPENSE, day)
  {
    if period != [] {
      OneMoreDay(period[..|period| - 1], resolve, day);
    }
  }

  predicate InWindow(period: seq<PeriodRow>, start: Date, end: Date) {
    forall i :: 0 <= i < |period| ==> start <= period[i].date <= end
  }

  lemma {:induction false} WindowBoundsTheEffect(period: seq<PeriodRow>, resolve: TypeResolver, start: Date, end: Date)
    requires InWindow(period, start, end)
    ensures EffectUpTo(period, resolve, start - 1) == 0
    ensures EffectUpTo(period, resolve, end) == NetEffect(period, resolve)
  {
    if period != [] {
      WindowBoundsTheEffect(period[..|period| - 1], resolve, start, end);
    }
  }

  // The report.

  datatype DailyBucket = DailyBucket(income: int, expense: int)

  datatype DaySummary = DaySummary(date: PlainDate, income: int, expense: int, balance: int)

  method CalculateNetPeriodEffect(period: seq<PeriodRow>, resolve: TypeResolver) returns (net: int)
    ensures net == NetEffect(period, resolve)
  {
    net := 0;
    for i := 0 to |period|
      invariant net == NetEffect(period[..i], resolve)
    {
      assert period[..i + 1][..i] == period[..i];
      var effective := Resolved(period[i], resolve);
      if effective == INCOME { net := net + period[i].amount; }
      if effective == EXPENSE { net := net - period[i].amount; }
    }
    assert period[..|period|] == period;
  }

  predicate IsBucketOf(bucket: DailyBucket, period: seq<PeriodRow>, resolve: TypeResolver, day: Date) {
    bucket.income == OnDay(period, resolve, INCOME, day) && bucket.expense == OnDay(period, resolve, EXPENSE, day)
  }

  function WithRow(day: DailyBucket, row: PeriodRow, effective: TransactionType): DailyBucket {
    match effective
    case INCOME => day.(income := day.income + row.amount)
    case EXPENSE => day.(expense := day.expense + row.amount)
    case TRANSFER => day
  }

  lemma BucketTakesRow(bucket: DailyBucket, period: seq<PeriodRow>, i: nat, resolve: TypeResolver, day: Date)
    requires i < |period| && IsBucketOf(bucket, period[..i], resolve, day)
    ensures IsBucketOf(if period[i].date == day then WithRow(bucket, period[i], Resolved(period[i], resolve)) else bucket,
                       period[..i + 1], resolve, day)
  {
    assert period[..i + 1][..i] == period[..i];
  }

  lemma EmptyBucket(resolve: TypeResolver, day: Date)
    ensures IsBucketOf(DailyBucket(0, 0), [], resolve, day)
  {
  }

  /** Buckets by rendered day, and the order in which the days were put in. */
  class DailyMap {
    var keys: seq<PlainDate>
    var buckets: map<PlainDate, DailyBucket>

    ghost predicate Holds(start: Date, period: seq<PeriodRow>, resolve: TypeResolver)
      reads this
    {
      && (forall i :: 0 <= i < |keys| ==> keys[i] == Render(start + i))
      && (forall key :: key in buckets <==> key in keys)
      && (forall i :: 0 <= i < |keys| ==> keys[i] in buckets && IsBucketOf(buckets[keys[i]], period, resolve, start + i))
    }

    constructor (start: Date, end: Date)
      ensures forall resolve :: Holds(start, [], resolve)
      ensures |keys| == if start <= end then end - start + 1 else 0
    {
      keys, buckets := [], map[];
      new;
      hide Render, IsBucketOf;
      var dayOffset := 0;
      while start + dayOffset <= end
        invariant dayOffset == |keys|
        invariant start + dayOffset <= end + 1 || dayOffset == 0
        invariant forall i :: 0 <= i < |keys| ==> keys[i] == Render(start + i)
        invariant forall key :: key in buckets <==> key in keys
        invariant forall key :: key in buckets ==> buckets[key] == DailyBucket(0, 0)
        decreases end + 1 - start - dayOffset
      {
        var key := Render(start + dayOffset);
        KeyIsFresh(start, dayOffset, keys);
        keys := keys + [key];
        buckets := buckets[key := DailyBucket(0, 0)];
        dayOffset := dayOffset + 1;
      }
      forall resolve: TypeResolver
        ensures Holds(start, [], resolve)
      {
        forall i | 0 <= i < |keys|
          ensures IsBucketOf(buckets[keys[i]], [], resolve, start + i)
        {
          EmptyBucket(resolve, start + i);
        }
      }
    }

    method Accumulate(start: Date, period: seq<PeriodRow>, resolve: TypeResolver)
      requires Holds(start, [], resolve)
      modifies this
      ensures Holds(start, period, resolve) && keys == old(keys)
    {
      hide Render, IsBucketOf, WithRow, OnDay;
      for i := 0 to |period|
        invariant Holds(start, period[..i], resolve) && keys == old(keys)
      {
        var row := period[i];
        var key := Render(row.date);
        forall j | 0 <= j < |keys|
          ensures IsBucketOf(if row.date == start + j then WithRow(buckets[keys[j]], row, Resolved(row, resolve)) else buckets[keys[j]],
                             period[..i + 1], resolve, start + j)
          ensures keys[j] == key <==> row.date == start + j
        {
          BucketTakesRow(buckets[keys[j]], period, i, resolve, start + j);
          if keys[j] == key { RenderIsInjective(start + j, row.date); }
        }
        if key in buckets {
          buckets := buckets[key := WithRow(buckets[key], row, Resolved(row, resolve))];
        }
      }
      assert period[..|period|] == period;
    }

    method ToDaySummaries(ghost start: Date, ghost period: seq<PeriodRow>, ghost resolve: TypeResolver, startBalance: int)
      returns (result: seq<DaySummary>)
      requires Holds(start, period, resolve)
      ensures |result| == |keys|
      ensures forall i :: 0 <= i < |result| ==> IsDay(result[i], period, resolve, start, i, startBalance)
    {
      hide Render, EffectUpTo, OnDay;
      var accumulatedBalance := startBalance;
      result := [];
      for i := 0 to |keys|
        invariant |result| == i
        invariant accumulatedBalance
               == startBalance + EffectUpTo(period, resolve, start + i - 1) - EffectUpTo(period, resolve, start - 1)
        invariant forall j :: 0 <= j < i ==> IsDay(result[j], period, resolve, start, j, startBalance)
      {
        OneMoreDay(period, resolve, start + i);
        var day := buckets[keys[i]];
        accumulatedBalance := accumulatedBalance + day.income - day.expense;
        result := result + [DaySummary(keys[i], day.income, day.expense, accumulatedBalance)];
      }
    }
  }

  lemma KeyIsFresh(start: Date, count: nat, keys: seq<PlainDate>)
    requires count == |keys| && forall i :: 0 <= i < |keys| ==> keys[i] == Render(start + i)
    ensures Render(start + count) !in keys
  {
    hide Render;
    if Render(start + count) in keys {
      var i :| 0 <= i < |keys| && keys[i] == Render(start + count);
      RenderIsInjective(start + i, start + count);
    }
  }

  /** The i-th day: its own income and expense, and the balance carried through it. */
  predicate IsDay(s: DaySummary, period: seq<PeriodRow>, resolve: TypeResolver, start: Date, i: nat, startBalance: int) {
    && s.date == Render(start + i)
    && s.income == OnDay(period, resolve, INCOME, start + i)
    && s.expense == OnDay(period, resolve, EXPENSE, start + i)
    && s.balance == startBalance + EffectUpTo(period, resolve, start + i) - EffectUpTo(period, resolve, start - 1)
  }

  method BuildDailySummary(period: seq<PeriodRow>, resolve: TypeResolver, start: Date, end: Date, startBalance: int)
    returns (result: seq<DaySummary>)
    ensures |result| == if start <= end then end - start + 1 else 0
    ensures forall i :: 0 <= i < |result| ==> IsDay(result[i], period, resolve, start, i, startBalance)
  {
    var dailyMap := new DailyMap(start, end);
    dailyMap.Accumulate(start, period, resolve);
    result := dailyMap.ToDaySummaries(start, period, resolve, startBalance);
  }

  /**
   A series that starts from what is stored now less the effect of the window ends at what is
   stored now, for any way of resolving types.
   */
  method BuildEvolution(period: seq<PeriodRow>, resolve: TypeResolver, start: Date, end: Date, current: int)
    returns (result: seq<DaySummary>)
    requires InWindow(period, start, end) && start <= end
    ensures |result| == end - start + 1
    ensures forall i :: 0 <= i < |result| ==>
              && result[i].date == Render(start + i)
              && result[i].balance == current - (NetEffect(period, resolve) - EffectUpTo(period, resolve, start + i))
    ensures result[|result| - 1].balance == current
  {
    var effect := CalculateNetPeriodEffect(period, resolve);
    result := BuildDailySummary(period, resolve, start, end, current - effect);
    WindowBoundsTheEffect(period, resolve, start, end);
  }

  /** The three series of the report; each ends at the total it was computed back from. */
  method BuildReport(
      general: seq<PeriodRow>, investment: seq<PeriodRow>, netWorth: seq<PeriodRow>, start: Date, end: Date,
      totalGeneral: int, totalInvested: int, currentNetWorth: int)
    returns (evolution: seq<DaySummary>, investments: seq<DaySummary>, worth: seq<DaySummary>)
    requires start <= end
    requires InWindow(general, start, end) && InWindow(investment, start, end) && InWindow(netWorth, start, end)
    ensures |evolution| == |investments| == |worth| == end - start + 1
    ensures evolution[|evolution| - 1].balance == totalGeneral
    ensures investments[|investments| - 1].balance == totalInvested
    ensures worth[|worth| - 1].balance == currentNetWorth
  {
    evolution := BuildEvolution(general, ResolveGeneralType, start, end, totalGeneral);
    investments := BuildEvolution(investment, ResolveInvestmentType, start, end, totalInvested);
    worth := BuildEvolution(netWorth, ResolveNetWorthType, start, end, currentNetWorth);
  }

  // Against the ledger.

  function FlowBy(t: Transaction, day: int): int {
    if t.date <= day then Flow(t) else 0
  }

  function FlowAt(t: Transaction, day: int): int {
    if t.date == day then Flow(t) else 0
  }

  ghost function FlowsBy(ts: map<Id, Transaction>, day: int): map<Id, int> {
    map k | k in ts :: FlowBy(ts[k], day)
  }

  ghost function FlowsAt(ts: map<Id, Transaction>, day: int): map<Id, int> {
    map k | k in ts :: FlowAt(ts[k], day)
  }

  /** Completed income minus completed expense dated up to a day: the forward computation. */
  ghost function FlowUpTo(ts: map<Id, Transaction>, day: int): int {
    Sum(FlowsBy(ts, day))
  }

  ghost function FlowOn(ts: map<Id, Transaction>, day: int): int {
    Sum(FlowsAt(ts, day))
  }

  lemma FlowOneMoreDay(ts: map<Id, Transaction>, day: int)
    ensures FlowUpTo(ts, day) == FlowUpTo(ts, day - 1) + FlowOn(ts, day)
  {
    var before, on := FlowsBy(ts, day - 1), FlowsAt(ts, day);
    SumPlus(before, on);
    assert FlowsBy(ts, day) == map k | k in before :: before[k] + on[k];
  }

  /** The rows stand for the transactions of the window, day by day, however they were grouped. */
  ghost predicate Represents(period: seq<PeriodRow>, ts: map<Id, Transaction>, start: Date, end: Date) {
    && InWindow(period, start, end)
    && forall day: Date :: start <= day <= end ==>
         OnDay(period, ResolveNetWorthType, INCOME, day) - OnDay(period, ResolveNetWorthType, EXPENSE, day) == FlowOn(ts, day)
  }

  lemma {:induction false} WindowsAgree(period: seq<PeriodRow>, ts: map<Id, Transaction>, start: Date, end: Date, day: Date)
    requires Represents(period, ts, start, end) && start <= day <= end
    ensures EffectUpTo(period, ResolveNetWorthType, end) - EffectUpTo(period, ResolveNetWorthType, day)
         == FlowUpTo(ts, end) - FlowUpTo(ts, day)
    decreases end - day
  {
    hide EffectUpTo, FlowUpTo, OnDay, FlowOn;
    if day < end {
      WindowsAgree(period, ts, start, end, day + 1);
      OneMoreDay(period, ResolveNetWorthType, day + 1);
      FlowOneMoreDay(ts, day + 1);
    }
  }

  predicate NothingCompletedAfter(ts: map<Id, Transaction>, end: Date) {
    forall k :: k in ts && ts[k].status == COMPLETED ==> ts[k].date <= end
  }

  lemma FlowUpToTheEnd(ts: map<Id, Transaction>, end: Date)
    requires NothingCompletedAfter(ts, end)
    ensures FlowUpTo(ts, end) == NetFlow(ts)
  {
    assert FlowsBy(ts, end) == Flows(ts);
  }

  /**
   The net worth series computed backward from the stored balances is, on every day, the
   openings plus the completed flow dated up to that day, and it ends at what is stored.
   */
  method BuildNetWorthEvolution(ghost l: LedgerState, period: seq<PeriodRow>, start: Date, end: Date, currentNetWorth: int)
    returns (result: seq<DaySummary>)
    requires start <= end && InWindow(period, start, end)
    requires Sound(l) && currentNetWorth == Current(l)
    requires Represents(period, l.transactions, start, end) && NothingCompletedAfter(l.transactions, end)
    ensures |result| == end - start + 1
    ensures forall i :: 0 <= i < |result| ==>
              result[i].date == Render(start + i) && result[i].balance == Openings(l) + FlowUpTo(l.transactions, start + i)
    ensures result[|result| - 1].balance == Current(l)
  {
    hide Sound, Represents, EffectUpTo, FlowUpTo, NetEffect, Current, Openings, Render;
    result := BuildEvolution(period, ResolveNetWorthType, start, end, currentNetWorth);
    forall i | 0 <= i < |result|
      ensures result[i].balance == Openings(l) + FlowUpTo(l.transactions, start + i)
    {
      BackwardIsForward(l, period, start, end, start + i);
    }
  }

  lemma BackwardIsForward(l: LedgerState, period: seq<PeriodRow>, start: Date, end: Date, day: Date)
    requires Sound(l) && Represents(period, l.transactions, start, end) && NothingCompletedAfter(l.transactions, end)
    requires start <= day <= end
    ensures Current(l) - (NetEffect(period, ResolveNetWorthType) - EffectUpTo(period, ResolveNetWorthType, day))
         == Openings(l) + FlowUpTo(l.transactions, day)
  {
    hide Sound, EffectUpTo, FlowUpTo, FlowOn, OnDay, NetEffect, Current, Openings, NetFlow;
    NetWorthIsOpeningsPlusFlow(l);
    WindowBoundsTheEffect(period, ResolveNetWorthType, start, end);
    WindowsAgree(period, l.transactions, start, end, day);
    FlowUpToTheEnd(l.transactions, end);
  }

  // One row for each transaction is such a representation.

  predicate IsQueried(t: Transaction, start: Date, end: Date) {
    t.status == COMPLETED && (t.kind == INCOME || t.kind == EXPENSE) && start <= t.date <= end
  }

  ghost predicate ListsWindow(ts: map<Id, Transaction>, ids: seq<Id>, start: Date, end: Date) {
    && (forall id :: id in ids <==> id in ts && IsQueried(ts[id], start, end))
    && (forall i, j :: 0 <= i < j < |ids| ==> ids[i] != ids[j])
  }

  predicate AreRowsOf(period: seq<PeriodRow>, ts: map<Id, Transaction>, ids: seq<Id>) {
    |period| == |ids| && forall i :: 0 <= i < |ids| ==> ids[i] in ts && IsRowOf(period[i], ts[ids[i]])
  }

  predicate IsRowOf(row: PeriodRow, t: Transaction) {
    row.kind == t.kind && row.amount == t.amount && row.date == t.date
  }

  lemma {:induction false} ListedRowsAddUp(
      period: seq<PeriodRow>, ts: map<Id, Transaction>, ids: seq<Id>, start: Date, end: Date, day: Date)
    requires ListsWindow(ts, ids, start, end) && AreRowsOf(period, ts, ids) && start <= day <= end
    ensures OnDay(period, ResolveNetWorthType, INCOME, day) - OnDay(period, ResolveNetWorthType, EXPENSE, day) == FlowOn(ts, day)
    decreases |ids|
  {
    if ids == [] {
      forall k | k in ts
        ensures FlowAt(ts[k], day) == 0
      {
        assert k !in ids;
      }
      SumOfZeroes(FlowsAt(ts, day));
    } else {
      var n := |ids| - 1;
      var k := ids[n];
      ListWithoutLast(ts, ids, start, end);
      assert AreRowsOf(period[..n], ts - {k}, ids[..n]);
      ListedRowsAddUp(period[..n], ts - {k}, ids[..n], start, end, day);
      SumTakes(FlowsAt(ts, day), k);
      assert FlowsAt(ts, day) - {k} == FlowsAt(ts - {k}, day);
    }
  }

  lemma ListWithoutLast(ts: map<Id, Transaction>, ids: seq<Id>, start: Date, end: Date)
    requires ListsWindow(ts, ids, start, end) && ids != []
    ensures ListsWindow(ts - {ids[|ids| - 1]}, ids[..|ids| - 1], start, end)
    ensures IsQueried(ts[ids[|ids| - 1]], start, end)
  {
    var n := |ids| - 1;
    var rest := ids[..n];
    assert ids[n] in ids;
    forall id
      ensures id in rest <==> id in ts - {ids[n]} && IsQueried(ts[id], start, end)
    {
      if id in ids && id != ids[n] {
        var i :| 0 <= i < |ids| && ids[i] == id;
        assert rest[i] == id;
      }
    }
  }

  lemma ListedRowsRepresent(period: seq<PeriodRow>, ts: map<Id, Transaction>, ids: seq<Id>, start: Date, end: Date)
    requires ListsWindow(ts, ids, start, end) && AreRowsOf(period, ts, ids)
    ensures Represents(period, ts, start, end)
  {
    hide OnDay, FlowOn;
    forall i | 0 <= i < |period|
      ensures start <= period[i].date <= end
    {
      assert ids[i] in ids;
    }
    forall day: Date | start <= day <= end
      ensures OnDay(period, ResolveNetWorthType, INCOME, day) - OnDay(period, ResolveNetWorthType, EXPENSE, day) == FlowOn(ts, day)
    {
      ListedRowsAddUp(period, ts, ids, start, end, day);
    }
  }

  // What the resolvers count, against what a row does to the balances of its group.

  /** What a row adds to the balances of the accounts of some kinds, none of them cards. */
  function GroupEffect(row: PeriodRow, isMember: AccountKind -> bool): int {
    match row.kind
    case INCOME => if isMember(row.source) then row.amount else 0
    case EXPENSE => if isMember(row.source) then -row.amount else 0
    case TRANSFER =>
      (if row.destination.Some? && isMember(row.destination.value) then row.amount else 0)
      - (if isMember(row.source) then row.amount else 0)
  }

  function IsGeneral(kind: AccountKind): bool {
    kind == Checking || kind == Cash
  }

  function IsInvestment(kind: AccountKind): bool {
    kind == Investment
  }

  /** The rows the two queries select. */
  predicate IsGeneralRow(row: PeriodRow) {
    || (row.kind != TRANSFER && row.source != CreditCard && row.source != Investment)
    || (row.kind == TRANSFER
        && (row.destination == Some(CreditCard) || row.source == Investment || row.destination == Some(Investment)))
  }

  predicate IsInvestmentRow(row: PeriodRow) {
    || (row.kind != TRANSFER && row.source == Investment)
    || (row.kind == TRANSFER && (row.source == Investment || row.destination == Some(Investment)))
  }

  function Selected(period: seq<PeriodRow>, isSelected: PeriodRow -> bool): seq<PeriodRow> {
    if period == [] then []
    else
      var last := period[|period| - 1];
      Selected(period[..|period| - 1], isSelected) + (if isSelected(last) then [last] else [])
  }

  function GroupEffects(period: seq<PeriodRow>, isMember: AccountKind -> bool): int {
    if period == [] then 0
    else GroupEffects(period[..|period| - 1], isMember) + GroupEffect(period[|period| - 1], isMember)
  }

  predicate IsTransferBy(row: PeriodRow, isPair: (AccountKind, AccountKind) -> bool) {
    row.kind == TRANSFER && row.destination.Some? && isPair(row.source, row.destination.value)
  }

  /** The amounts of the transfers between some pairs of kinds. */
  function TransferredBy(period: seq<PeriodRow>, isPair: (AccountKind, AccountKind) -> bool): int {
    if period == [] then 0
    else
      var last := period[|period| - 1];
      TransferredBy(period[..|period| - 1], isPair)
      + (if IsTransferBy(last, isPair) then last.amount else 0)
  }

  /** Nothing is transferred between such kinds exactly when no row is such a transfer. */
  lemma {:induction false} NothingTransferred(period: seq<PeriodRow>, isPair: (AccountKind, AccountKind) -> bool)
    requires forall i :: 0 <= i < |period| ==> period[i].amount > 0
    ensures TransferredBy(period, isPair) >= 0
    ensures TransferredBy(period, isPair) == 0
            <==> forall i :: 0 <= i < |period| ==> !IsTransferBy(period[i], isPair)
  {
    if period != [] {
      NothingTransferred(period[..|period| - 1], isPair);
    }
  }

  predicate HaveDestinations(period: seq<PeriodRow>) {
    forall i :: 0 <= i < |period| && period[i].kind == TRANSFER ==> period[i].destination.Some?
  }

  lemma SelectingOneMore(period: seq<PeriodRow>, isSelected: PeriodRow -> bool, resolve: TypeResolver)
    requires period != []
    ensures var before, last := period[..|period| - 1], period[|period| - 1];
            NetEffect(Selected(period, isSelected), resolve)
            == NetEffect(Selected(before, isSelected), resolve) + (if isSelected(last) then NetOf(last, resolve) else 0)
  {
    hide NetOf;
    var selected := Selected(period[..|period| - 1], isSelected);
    if isSelected(period[|period| - 1]) {
      assert (selected + [period[|period| - 1]])[..|selected|] == selected;
    } else {
      assert selected + [] == selected;
    }
  }

  predicate IsWithinInvestments(source: AccountKind, destination: AccountKind) {
    source == Investment && destination == Investment
  }

  lemma InvestmentRowAgainstBalances(row: PeriodRow)
    requires row.kind == TRANSFER ==> row.destination.Some?
    ensures (if IsInvestmentRow(row) then NetOf(row, ResolveInvestmentType) else 0)
         == GroupEffect(row, IsInvestment) + (if IsTransferBy(row, IsWithinInvestments) then row.amount else 0)
  {
  }

  /**
   The investment series moves as the balances of the investments do, and by every transfer between
   two investments besides, which leaves their total as it is.
   */
  lemma {:induction false} InvestmentSeriesAgainstBalances(period: seq<PeriodRow>)
    requires HaveDestinations(period)
    ensures NetEffect(Selected(period, IsInvestmentRow), ResolveInvestmentType)
         == GroupEffects(period, IsInvestment) + TransferredBy(period, IsWithinInvestments)
  {
    if period != [] {
      hide NetOf, Selected, NetEffect, GroupEffect, IsInvestmentRow, IsTransferBy;
      InvestmentSeriesAgainstBalances(period[..|period| - 1]);
      SelectingOneMore(period, IsInvestmentRow, ResolveInvestmentType);
      InvestmentRowAgainstBalances(period[|period| - 1]);
    }
  }

  /** From a card to any account, or from an investment to a card or an investment. */
  predicate PassesGeneralBy(source: AccountKind, destination: AccountKind) {
    source == CreditCard || (source == Investment && !IsGeneral(destination))
  }

  lemma GeneralRowAgainstBalances(row: PeriodRow)
    requires row.kind == TRANSFER ==> row.destination.Some?
    ensures (if IsGeneralRow(row) then NetOf(row, ResolveGeneralType) else 0)
         == GroupEffect(row, IsGeneral) - (if IsTransferBy(row, PassesGeneralBy) then row.amount else 0)
  {
  }

  /**
   The general series moves as the checking and cash balances do, less every transfer out of a card
   and every transfer from an investment to a card or an investment.
   */
  lemma {:induction false} GeneralSeriesAgainstBalances(period: seq<PeriodRow>)
    requires HaveDestinations(period)
    ensures NetEffect(Selected(period, IsGeneralRow), ResolveGeneralType)
         == GroupEffects(period, IsGeneral) - TransferredBy(period, PassesGeneralBy)
  {
    if period != [] {
      hide NetOf, Selected, NetEffect, GroupEffect, IsGeneralRow, IsTransferBy;
      GeneralSeriesAgainstBalances(period[..|period| - 1]);
      SelectingOneMore(period, IsGeneralRow, ResolveGeneralType);
      GeneralRowAgainstBalances(period[|period| - 1]);
    }
  }

  /** Net worth counts income and expense as they are, and no transfer. */
  lemma NetWorthRowsCountAsFlow(row: PeriodRow)
    ensures NetOf(row, ResolveNetWorthType)
         == if row.kind == INCOME then row.amount else if row.kind == EXPENSE then -row.amount else 0
  {
  }
}
