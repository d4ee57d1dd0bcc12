/** What an invoice shows: the balance carried in, its own charges and payments, and the total. */
module InvoiceStatement {
  import opened CivilCalendar
  import opened PlainDates
  import opened InvoiceCalendar

  datatype EntryKind = Charge | Payment

  datatype StatementEntry = StatementEntry(date: PlainDate, amount: int, kind: EntryKind)

  datatype Statement = Statement(
    previousBalance: int,
    charges: int,
    payments: int,
    total: int,
    remaining: int
  )

  function Filter<T>(xs: seq<T>, keep: T -> bool): (r: seq<T>)
    ensures forall x :: x in r ==> x in xs && keep(x)
  {
    if xs == [] then []
    else (if keep(xs[0]) then [xs[0]] else []) + Filter(xs[1..], keep)
  }

  function SumOf(entries: seq<StatementEntry>, kind: EntryKind): int {
    if entries == [] then 0
    else (if entries[0].kind == kind then entries[0].amount else 0) + SumOf(entries[1..], kind)
  }

  function BalanceOf(entries: seq<StatementEntry>): int {
    SumOf(entries, Charge) - SumOf(entries, Payment)
  }

  function AtLeastZero(amount: int): int {
    if amount > 0 then amount else 0
  }

  function Posted(entries: seq<StatementEntry>, today: PlainDate): seq<StatementEntry> {
    Filter(entries, (e: StatementEntry) => StringAtMost(e.date, today))
  }

  function BuildInvoiceStatement(
      calendar: Calendar, key: nat, today: PlainDate, entries: seq<StatementEntry>): Statement
    requires IsKey(key)
  {
    var bounds := GetBounds(calendar, key);
    var start, end := Render(bounds.periodStart), Render(bounds.periodEnd);
    var posted := Posted(entries, today);
    var withinPeriod := Filter(posted, (e: StatementEntry) => StringAtMost(start, e.date) && StringAtMost(e.date, end));
    var afterClosing := Filter(posted, (e: StatementEntry) => StringLess(end, e.date));
    var previousBalance := BalanceOf(Filter(posted, (e: StatementEntry) => StringLess(e.date, start)));
    var charges := SumOf(withinPeriod, Charge);
    var payments := SumOf(withinPeriod, Payment);
    var total := previousBalance + charges - payments;
    Statement(previousBalance, charges, payments, total,
              AtLeastZero(total - SumOf(afterClosing, Payment)))
  }

  // Reasoning about filters.

  /** A filter whose test is the disjoint union of two others sums to the sum of theirs. */
  lemma {:induction false} SumSplits(
      entries: seq<StatementEntry>, kind: EntryKind,
      whole: StatementEntry -> bool, left: StatementEntry -> bool, right: StatementEntry -> bool)
    requires forall e :: e in entries ==> whole(e) == (left(e) || right(e)) && !(left(e) && right(e))
    ensures SumOf(Filter(entries, whole), kind)
         == SumOf(Filter(entries, left), kind) + SumOf(Filter(entries, right), kind)
  {
    if entries != [] {
      SumSplits(entries[1..], kind, whole, left, right);
      SumOfFilterStep(entries, kind, whole);
      SumOfFilterStep(entries, kind, left);
      SumOfFilterStep(entries, kind, right);
    }
  }

  lemma SumOfFilterStep(entries: seq<StatementEntry>, kind: EntryKind, keep: StatementEntry -> bool)
    requires entries != []
    ensures SumOf(Filter(entries, keep), kind)
         == (if keep(entries[0]) && entries[0].kind == kind then entries[0].amount else 0)
            + SumOf(Filter(entries[1..], keep), kind)
  {
    if keep(entries[0]) {
      assert Filter(entries, keep)[1..] == Filter(entries[1..], keep);
    } else {
      assert Filter(entries, keep) == Filter(entries[1..], keep);
    }
  }

  lemma {:induction false} FilterAgrees<T>(xs: seq<T>, p: T -> bool, q: T -> bool)
    requires forall x :: x in xs ==> p(x) == q(x)
    ensures Filter(xs, p) == Filter(xs, q)
  {
    if xs != [] {
      FilterAgrees(xs[1..], p, q);
    }
  }

  lemma {:induction false} FilterKeepsAll<T>(xs: seq<T>, p: T -> bool)
    requires forall x :: x in xs ==> p(x)
    ensures Filter(xs, p) == xs
  {
    if xs != [] {
      FilterKeepsAll(xs[1..], p);
    }
  }

  // Dates as the ledger formats them.

  ghost predicate IsFourDigitDate(date: PlainDate) {
    exists day: Date :: FourDigitYear(day) && date == Render(day)
  }

  ghost predicate AllDated(entries: seq<StatementEntry>) {
    forall e :: e in entries ==> IsFourDigitDate(e.date)
  }

  predicate HasFourDigitBounds(calendar: Calendar, key: nat) {
    FourDigitKey(key) && FourDigitYear(GetBounds(calendar, key).periodStart)
  }

  lemma BoundIsOrdered(date: PlainDate, first: Date, second: Date)
    requires IsFourDigitDate(date) && FourDigitYear(first) && FourDigitYear(second) && first <= second
    ensures StringLess(date, Render(first)) ==> StringAtMost(date, Render(second))
    ensures StringLess(date, Render(first)) <==> !StringAtMost(Render(first), date)
  {
    hide Render, StringLess;
    var day: Date :| FourDigitYear(day) && date == Render(day);
    FourDigitOrder(day, first);
    FourDigitOrder(day, second);
  }

  lemma NextDayIsNextString(date: PlainDate, end: Date)
    requires IsFourDigitDate(date) && FourDigitYear(end) && FourDigitYear(end + 1)
    ensures StringLess(date, Render(end + 1)) <==> StringAtMost(date, Render(end))
  {
    hide Render, StringLess, StringAtMost;
    var day: Date :| FourDigitYear(day) && date == Render(day);
    FourDigitOrder(day, end);
    FourDigitOrder(day, end + 1);
  }

  lemma BoundsAreFourDigit(calendar: Calendar, key: nat)
    requires HasFourDigitBounds(calendar, key)
    ensures FourDigitYear(GetBounds(calendar, key).periodEnd)
    ensures GetBounds(calendar, key).periodStart <= GetBounds(calendar, key).periodEnd
  {
    hide GetBounds;
    BoundsYears(calendar, key);
  }

  /** The balance of everything posted up to a closing date. */
  function BalanceUpTo(entries: seq<StatementEntry>, today: PlainDate, end: PlainDate): int {
    BalanceOf(Filter(Posted(entries, today), (e: StatementEntry) => StringAtMost(e.date, end)))
  }

  /** An invoice totals the charges minus the payments of all posted entries up to its closing. */
  lemma TotalIsBalanceUpToClosing(calendar: Calendar, key: nat, today: PlainDate, entries: seq<StatementEntry>)
    requires HasFourDigitBounds(calendar, key) && AllDated(entries)
    ensures BuildInvoiceStatement(calendar, key, today, entries).total
         == BalanceUpTo(entries, today, Render(GetBounds(calendar, key).periodEnd))
  {
    hide GetBounds, Render, StringLess;
    var bounds := GetBounds(calendar, key);
    var start, end := Render(bounds.periodStart), Render(bounds.periodEnd);
    var posted := Posted(entries, today);
    BoundsAreFourDigit(calendar, key);
    forall e | e in posted
      ensures StringAtMost(e.date, end)
              == (StringLess(e.date, start) || (StringAtMost(start, e.date) && StringAtMost(e.date, end)))
    {
      BoundIsOrdered(e.date, bounds.periodStart, bounds.periodEnd);
    }
    var whole := (e: StatementEntry) => StringAtMost(e.date, end);
    var before := (e: StatementEntry) => StringLess(e.date, start);
    var within := (e: StatementEntry) => StringAtMost(start, e.date) && StringAtMost(e.date, end);
    SumSplits(posted, Charge, whole, before, within);
    SumSplits(posted, Payment, whole, before, within);
  }

  lemma NextPeriodIsNextDay(calendar: Calendar, key: nat)
    requires HasFourDigitBounds(calendar, key) && FourDigitKey(key + 1)
    ensures var end := GetBounds(calendar, key).periodEnd;
            && GetBounds(calendar, key + 1).periodStart == end + 1
            && FourDigitYear(end) && FourDigitYear(end + 1)
  {
    hide GetBounds;
    var end := GetBounds(calendar, key).periodEnd;
    BoundsAreFourDigit(calendar, key);
    PeriodsAreContiguous(calendar, key);
    PeriodEndBeforeEndExclusive(calendar, key);
    BoundsYears(calendar, key + 1);
    YearsFollowDates(end, end + 1);
  }

  /** Statements telescope: what one invoice totals is what the next one carries in. */
  lemma StatementsTelescope(calendar: Calendar, key: nat, today: PlainDate, entries: seq<StatementEntry>)
    requires HasFourDigitBounds(calendar, key) && FourDigitKey(key + 1) && AllDated(entries)
    ensures BuildInvoiceStatement(calendar, key + 1, today, entries).previousBalance
         == BuildInvoiceStatement(calendar, key, today, entries).total
  {
    hide GetBounds, Render, StringLess, StringAtMost, SumOf;
    TotalIsBalanceUpToClosing(calendar, key, today, entries);
    var end := GetBounds(calendar, key).periodEnd;
    NextPeriodIsNextDay(calendar, key);
    var posted := Posted(entries, today);
    forall e | e in posted
      ensures StringLess(e.date, Render(end + 1)) == StringAtMost(e.date, Render(end))
    {
      NextDayIsNextString(e.date, end);
    }
    FilterAgrees(posted, (e: StatementEntry) => StringLess(e.date, Render(end + 1)),
                 (e: StatementEntry) => StringAtMost(e.date, Render(end)));
  }

  /** The open invoice totals everything posted: the entries dated up to today, and no later one. */
  lemma OpenInvoiceTotalsPosted(calendar: Calendar, today: Date, entries: seq<StatementEntry>)
    requires FourDigitYear(today) && AllDated(entries)
    requires HasFourDigitBounds(calendar, InvoiceKeyFor(calendar, today))
    ensures BuildInvoiceStatement(calendar, InvoiceKeyFor(calendar, today), Render(today), entries).total
         == BalanceOf(Posted(entries, Render(today)))
  {
    hide GetBounds, Render, StringAtMost, StringLess, SumOf, InvoiceKeyFor;
    var key := InvoiceKeyFor(calendar, today);
    var end := Render(GetBounds(calendar, key).periodEnd);
    TotalIsBalanceUpToClosing(calendar, key, Render(today), entries);
    PostedIsBeforeClosing(calendar, today, entries);
    FilterKeepsAll(Posted(entries, Render(today)), (e: StatementEntry) => StringAtMost(e.date, end));
  }

  lemma PostedIsBeforeClosing(calendar: Calendar, today: Date, entries: seq<StatementEntry>)
    requires FourDigitYear(today) && AllDated(entries)
    requires HasFourDigitBounds(calendar, InvoiceKeyFor(calendar, today))
    ensures forall e :: e in Posted(entries, Render(today)) ==>
              StringAtMost(e.date, Render(GetBounds(calendar, InvoiceKeyFor(calendar, today)).periodEnd))
  {
    hide GetBounds, Render, StringAtMost, InvoiceKeyFor;
    var key := InvoiceKeyFor(calendar, today);
    KeyIsThePeriodOfTheDate(calendar, today, key);
    BoundsAreFourDigit(calendar, key);
    forall e | e in Posted(entries, Render(today))
      ensures StringAtMost(e.date, Render(GetBounds(calendar, key).periodEnd))
    {
      AtMostIsTransitive(e.date, today, GetBounds(calendar, key).periodEnd);
    }
  }

  /** Nothing posted comes after the closing of the open invoice, so it asks for its total, unless that is a credit. */
  lemma OpenInvoiceAsksForItsTotal(calendar: Calendar, today: Date, entries: seq<StatementEntry>)
    requires FourDigitYear(today) && AllDated(entries)
    requires HasFourDigitBounds(calendar, InvoiceKeyFor(calendar, today))
    ensures var statement := BuildInvoiceStatement(calendar, InvoiceKeyFor(calendar, today), Render(today), entries);
            statement.remaining == AtLeastZero(statement.total)
  {
    hide GetBounds, Render, StringLess, InvoiceKeyFor, AllDated;
    PostedIsBeforeClosing(calendar, today, entries);
    var end := Render(GetBounds(calendar, InvoiceKeyFor(calendar, today)).periodEnd);
    FilterDropsAll(Posted(entries, Render(today)), (e: StatementEntry) => StringLess(end, e.date));
  }

  lemma {:induction false} FilterDropsAll<T>(xs: seq<T>, p: T -> bool)
    requires forall x :: x in xs ==> !p(x)
    ensures Filter(xs, p) == []
  {
    if xs != [] {
      FilterDropsAll(xs[1..], p);
    }
  }

  /** When nothing is dated after today, that is the whole ledger. */
  lemma OpenInvoiceTotalsEverything(calendar: Calendar, today: Date, entries: seq<StatementEntry>)
    requires FourDigitYear(today) && AllDated(entries)
    requires HasFourDigitBounds(calendar, InvoiceKeyFor(calendar, today))
    requires forall e :: e in entries ==> StringAtMost(e.date, Render(today))
    ensures BuildInvoiceStatement(calendar, InvoiceKeyFor(calendar, today), Render(today), entries).total
         == BalanceOf(entries)
  {
    hide GetBounds, Render, StringAtMost, StringLess, SumOf, InvoiceKeyFor, HasFourDigitBounds;
    OpenInvoiceTotalsPosted(calendar, today, entries);
    FilterKeepsAll(entries, (e: StatementEntry) => StringAtMost(e.date, Render(today)));
  }

  lemma AtMostIsTransitive(date: PlainDate, middle: Date, last: Date)
    requires IsFourDigitDate(date) && FourDigitYear(middle) && FourDigitYear(last)
    requires StringAtMost(date, Render(middle)) && middle <= last
    ensures StringAtMost(date, Render(last))
  {
    hide Render, StringAtMost;
    var day: Date :| FourDigitYear(day) && date == Render(day);
    FourDigitOrder(day, middle);
    FourDigitOrder(day, last);
  }

  // What remains to be paid.

  /** Everything charged up to a closing date, and everything ever paid, of what is posted. */
  function ChargedUpTo(entries: seq<StatementEntry>, today: PlainDate, end: PlainDate): int {
    SumOf(Filter(Posted(entries, today), (e: StatementEntry) => StringAtMost(e.date, end)), Charge)
  }

  function PaidEver(entries: seq<StatementEntry>, today: PlainDate): int {
    SumOf(Posted(entries, today), Payment)
  }

  /**
   What remains of an invoice is what was charged up to its closing and has not been paid since,
   counting every payment, early or late, and no later charge.
   */
  lemma RemainingIsChargesNotPaid(calendar: Calendar, key: nat, today: PlainDate, entries: seq<StatementEntry>)
    requires HasFourDigitBounds(calendar, key) && AllDated(entries)
    ensures BuildInvoiceStatement(calendar, key, today, entries).remaining
         == AtLeastZero(ChargedUpTo(entries, today, Render(GetBounds(calendar, key).periodEnd)) - PaidEver(entries, today))
  {
    hide GetBounds, Render, StringLess, StringAtMost, SumOf, AllDated;
    TotalIsBalanceUpToClosing(calendar, key, today, entries);
    PaymentsSplitAtClosing(Posted(entries, today), Render(GetBounds(calendar, key).periodEnd));
  }

  lemma PaymentsSplitAtClosing(posted: seq<StatementEntry>, end: PlainDate)
    ensures SumOf(posted, Payment)
         == SumOf(Filter(posted, (e: StatementEntry) => StringAtMost(e.date, end)), Payment)
            + SumOf(Filter(posted, (e: StatementEntry) => StringLess(end, e.date)), Payment)
  {
    hide StringLess;
    SumSplits(posted, Payment, (e: StatementEntry) => true, (e: StatementEntry) => StringAtMost(e.date, end),
              (e: StatementEntry) => StringLess(end, e.date));
    FilterKeepsAll(posted, (e: StatementEntry) => true);
  }

  // What each invoice shows as its own.

  function PaidUpTo(entries: seq<StatementEntry>, today: PlainDate, end: PlainDate): int {
    SumOf(Filter(Posted(entries, today), (e: StatementEntry) => StringAtMost(e.date, end)), Payment)
  }

  /** The charges and the payments of an invoice are what was added since the closing before it. */
  lemma OwnAmountsAreSinceTheLastClosing(calendar: Calendar, key: nat, today: PlainDate, entries: seq<StatementEntry>)
    requires HasFourDigitBounds(calendar, key) && FourDigitKey(key + 1) && AllDated(entries)
    ensures var before, end := Render(GetBounds(calendar, key).periodEnd), Render(GetBounds(calendar, key + 1).periodEnd);
            var statement := BuildInvoiceStatement(calendar, key + 1, today, entries);
            && statement.charges == ChargedUpTo(entries, today, end) - ChargedUpTo(entries, today, before)
            && statement.payments == PaidUpTo(entries, today, end) - PaidUpTo(entries, today, before)
  {
    hide GetBounds, Render, StringLess, StringAtMost, SumOf;
    NextPeriodIsNextDay(calendar, key);
    BoundsYears(calendar, key + 1);
    BoundsAreFourDigit(calendar, key + 1);
    var last := GetBounds(calendar, key).periodEnd;
    var before, start, end := Render(last), Render(last + 1), Render(GetBounds(calendar, key + 1).periodEnd);
    var posted := Posted(entries, today);
    var whole := (e: StatementEntry) => StringAtMost(e.date, end);
    var early := (e: StatementEntry) => StringAtMost(e.date, before);
    var within := (e: StatementEntry) => StringAtMost(start, e.date) && StringAtMost(e.date, end);
    forall e | e in posted
      ensures whole(e) == (early(e) || within(e)) && !(early(e) && within(e))
    {
      ConsecutivePeriods(e.date, last, GetBounds(calendar, key + 1).periodEnd);
    }
    SumSplits(posted, Charge, whole, early, within);
    SumSplits(posted, Payment, whole, early, within);
  }

  lemma ConsecutivePeriods(date: PlainDate, last: Date, end: Date)
    requires IsFourDigitDate(date) && FourDigitYear(last) && FourDigitYear(last + 1) && FourDigitYear(end) && last <= end
    ensures StringAtMost(date, Render(end)) <==>
              StringAtMost(date, Render(last)) || (StringAtMost(Render(last + 1), date) && StringAtMost(date, Render(end)))
    ensures !(StringAtMost(date, Render(last)) && StringAtMost(Render(last + 1), date))
  {
    hide Render, StringAtMost;
    var day: Date :| FourDigitYear(day) && date == Render(day);
    FourDigitOrder(day, last);
    FourDigitOrder(day, end);
    FourDigitOrder(last + 1, day);
  }
}
