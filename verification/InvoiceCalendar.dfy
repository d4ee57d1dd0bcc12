/**
 The billing calendar of a credit card: which invoice a date belongs to and
 where an invoice begins and ends. Keys are month indices, rendered `YYYY-MM`;
 dates are compared as strings, as the repository does.
 */
module InvoiceCalendar {
  import opened Results
  import opened CivilCalendar
  import opened PlainDates

  datatype Cycle = Cycle(dueDay: int, closingDaysBeforeDue: int)

  datatype CycleError = InvalidDueDay | InvalidClosingDistance

  const MIN_DUE_DAY := 1
  const MAX_DUE_DAY := 28

  predicate IsValidDueDay(day: int) {
    MIN_DUE_DAY <= day <= MAX_DUE_DAY
  }

  predicate IsValidClosingDaysBeforeDue(days: int) {
    days == 5 || days == 7 || days == 10
  }

  predicate IsValidCycle(cycle: Cycle) {
    IsValidDueDay(cycle.dueDay) && IsValidClosingDaysBeforeDue(cycle.closingDaysBeforeDue)
  }

  type Calendar = c: Cycle | IsValidCycle(c) witness Cycle(1, 5)

  function NewCalendar(cycle: Cycle): (r: Result<Calendar, CycleError>)
    ensures r.Ok? <==> IsValidCycle(cycle)
    ensures r.Ok? ==> r.value == cycle
  {
    if !IsValidDueDay(cycle.dueDay) then Err(InvalidDueDay)
    else if !IsValidClosingDaysBeforeDue(cycle.closingDaysBeforeDue) then Err(InvalidClosingDistance)
    else Ok(cycle)
  }

  datatype Bounds = Bounds(periodStart: Date, periodEnd: Date, endExclusive: Date, dueDate: Date)

  function DueOf(calendar: Calendar, month: nat): Date {
    var day := if calendar.dueDay <= DaysInMonth(month) then calendar.dueDay else DaysInMonth(month);
    DateOf(month, day)
  }

  function ClosingOf(calendar: Calendar, due: Date): Date
    requires calendar.closingDaysBeforeDue <= due
  {
    due - calendar.closingDaysBeforeDue
  }

  /** Months late enough for the closing of the previous invoice to exist. */
  predicate IsKey(month: nat) {
    month >= 2
  }

  lemma DueFarEnough(calendar: Calendar, month: nat)
    requires month >= 1
    ensures calendar.closingDaysBeforeDue <= DueOf(calendar, month)
  {
    MonthStartsIncrease(0, month);
  }

  function GetBounds(calendar: Calendar, key: nat): Bounds
    requires IsKey(key)
  {
    DueFarEnough(calendar, key);
    DueFarEnough(calendar, key - 1);
    var closing := ClosingOf(calendar, DueOf(calendar, key));
    var previousClosing := ClosingOf(calendar, DueOf(calendar, key - 1));
    Bounds(previousClosing + 1, closing, closing + 1, DueOf(calendar, key))
  }

  function InvoiceKeyFor(calendar: Calendar, date: Date): (key: nat) {
    var threshold := date + calendar.closingDaysBeforeDue;
    var month := MonthOf(threshold);
    if StringAtMost(Render(threshold), Render(DueOf(calendar, month))) then month else month + 1
  }

  function PreviousKey(key: nat): nat
    requires key >= 1
  {
    key - 1
  }

  predicate IsWithinPeriod(date: PlainDate, bounds: Bounds) {
    StringAtMost(Render(bounds.periodStart), date) && StringAtMost(date, Render(bounds.periodEnd))
  }

  predicate FourDigitKey(key: nat) {
    1000 <= key / 12 <= 9999
  }

  lemma DuesIncrease(calendar: Calendar, a: nat, b: nat)
    requires a < b
    ensures DueOf(calendar, a) < DueOf(calendar, b)
  {
    MonthStartsIncrease(a, b);
  }

  /** Consecutive invoices leave no gap and share no day. */
  lemma PeriodsAreContiguous(calendar: Calendar, key: nat)
    requires IsKey(key)
    ensures GetBounds(calendar, key).endExclusive == GetBounds(calendar, key + 1).periodStart
    ensures GetBounds(calendar, key).periodStart <= GetBounds(calendar, key).periodEnd
    ensures PreviousKey(key + 1) == key
  {
    DuesIncrease(calendar, key - 1, key);
  }

  /** By day numbers, the key of a date is the one invoice whose period holds it. */
  lemma KeyIsThePeriodOfTheDate(calendar: Calendar, date: Date, key: nat)
    requires IsKey(key)
    ensures InvoiceKeyFor(calendar, date) == key
            <==> GetBounds(calendar, key).periodStart <= date <= GetBounds(calendar, key).periodEnd
  {
    hide GetBounds, DueOf, InvoiceKeyFor;
    BoundsByDues(calendar, key);
    var found := InvoiceKeyFor(calendar, date);
    ThresholdFallsBetweenDues(calendar, date);
    if found < key {
      if found < key - 1 {
        DuesIncrease(calendar, found, key - 1);
      }
    } else if key < found {
      if key < found - 1 {
        DuesIncrease(calendar, key, found - 1);
      }
    }
  }

  /** An invoice falls due on its due day of its own month, closes the set days before, and begins after the last closing. */
  lemma BoundsFollowTheCycle(calendar: Calendar, key: nat)
    requires IsKey(key)
    ensures var b := GetBounds(calendar, key);
            && MonthOf(b.dueDate) == key && DayOf(b.dueDate) == calendar.dueDay
            && b.periodEnd + calendar.closingDaysBeforeDue == b.dueDate
            && b.endExclusive == b.periodEnd + 1
    ensures key >= 3 ==> GetBounds(calendar, key).periodStart == GetBounds(calendar, key - 1).periodEnd + 1
  {
    hide DueOf;
    DueWithinMonth(calendar, key);
    BoundsByDues(calendar, key);
    DueIsTheDueDate(calendar, key);
  }

  lemma DueIsTheDueDate(calendar: Calendar, key: nat)
    requires IsKey(key)
    ensures GetBounds(calendar, key).dueDate == DueOf(calendar, key)
  {
  }

  /** The cycles a card may have. */
  lemma CyclesAccepted(cycle: Cycle)
    ensures NewCalendar(cycle).Ok?
            <==> 1 <= cycle.dueDay <= 28
                 && (cycle.closingDaysBeforeDue == 5 || cycle.closingDaysBeforeDue == 7 || cycle.closingDaysBeforeDue == 10)
    ensures !(1 <= cycle.dueDay <= 28) ==> NewCalendar(cycle) == Err(InvalidDueDay)
  {
  }

  lemma BoundsByDues(calendar: Calendar, key: nat)
    requires IsKey(key)
    ensures GetBounds(calendar, key).periodStart + calendar.closingDaysBeforeDue == DueOf(calendar, key - 1) + 1
    ensures GetBounds(calendar, key).periodEnd + calendar.closingDaysBeforeDue == DueOf(calendar, key)
  {
    DueFarEnough(calendar, key);
    DueFarEnough(calendar, key - 1);
  }

  lemma ThresholdFallsBetweenDues(calendar: Calendar, date: Date)
    ensures var key, threshold := InvoiceKeyFor(calendar, date), date + calendar.closingDaysBeforeDue;
            && threshold <= DueOf(calendar, key)
            && (key > 0 ==> DueOf(calendar, key - 1) < threshold)
  {
    hide Render, StringAtMost, DaysInMonth, MonthStart, DueOf, MonthOf;
    var threshold := date + calendar.closingDaysBeforeDue;
    var month := MonthOf(threshold);
    SameMonthComparison(calendar, threshold);
    if threshold <= DueOf(calendar, month) {
      if month > 0 {
        DueRange(calendar, month - 1);
      }
    } else {
      DueRange(calendar, month + 1);
    }
  }

  lemma DueRange(calendar: Calendar, month: nat)
    ensures MonthStart(month) <= DueOf(calendar, month) < MonthStart(month + 1)
  {
  }

  lemma DueWithinMonth(calendar: Calendar, month: nat)
    ensures MonthOf(DueOf(calendar, month)) == month
    ensures DayOf(DueOf(calendar, month)) == calendar.dueDay
  {
    MonthAndDayRoundTrip(month, calendar.dueDay);
  }

  /** The one string comparison inside the key lookup is between dates of one month. */
  lemma SameMonthComparison(calendar: Calendar, threshold: Date)
    ensures StringAtMost(Render(threshold), Render(DueOf(calendar, MonthOf(threshold))))
            <==> threshold <= DueOf(calendar, MonthOf(threshold))
  {
    hide Render, Decimal, DueOf, DaysInMonth, MonthOf;
    DueWithinMonth(calendar, MonthOf(threshold));
    RenderOrder(DueOf(calendar, MonthOf(threshold)), threshold);
  }

  // Periods under string comparison.

  lemma BoundsYears(calendar: Calendar, key: nat)
    requires key >= 12
    ensures var b := GetBounds(calendar, key);
            && YearOf(b.periodStart) <= YearOf(b.periodEnd) <= key / 12
            && key / 12 - 1 <= YearOf(b.periodStart)
            && b.periodStart <= b.periodEnd
  {
    hide GetBounds, DueOf;
    BoundsByDues(calendar, key);
    PeriodsAreContiguous(calendar, key);
    var b := GetBounds(calendar, key);
    assert b.periodEnd <= DueOf(calendar, key);
    DueRange(calendar, key);
    DueRange(calendar, key - 1);
    if MonthOf(b.periodEnd) > key {
      MonthStartsIncrease(key, MonthOf(b.periodEnd));
    }
    if MonthOf(b.periodStart) > MonthOf(b.periodEnd) {
      MonthStartsIncrease(MonthOf(b.periodEnd), MonthOf(b.periodStart));
    }
    EarliestStart(calendar, key);
  }

  /** A period starts at most two months before its due month. */
  lemma EarliestStart(calendar: Calendar, key: nat)
    requires IsKey(key)
    ensures MonthOf(GetBounds(calendar, key).periodStart) + 2 >= key
  {
    hide GetBounds, DueOf;
    BoundsByDues(calendar, key);
    DueRange(calendar, key - 1);
    var start := GetBounds(calendar, key).periodStart;
    assert start >= MonthStart(key - 2);
    if MonthOf(start) + 1 < key - 1 {
      MonthStartsIncrease(MonthOf(start), key - 2);
    }
  }

  /** The keys a date of a four-digit year can have. */
  predicate IsKeyOfFourDigitYears(key: nat) {
    1000 <= key / 12 <= 10000
  }

  /** A period holding a date begins and ends within two months of it. */
  lemma OwnKeyIsOfFourDigitYears(calendar: Calendar, date: Date)
    requires FourDigitYear(date)
    ensures IsKeyOfFourDigitYears(InvoiceKeyFor(calendar, date))
  {
    hide GetBounds, InvoiceKeyFor;
    var key := InvoiceKeyFor(calendar, date);
    KeyNotBeforeDate(calendar, date);
    KeyIsThePeriodOfTheDate(calendar, date, key);
    EarliestStart(calendar, key);
    var start := GetBounds(calendar, key).periodStart;
    if MonthOf(date) < MonthOf(start) {
      MonthsOrderDates(date, start);
    }
  }

  /**
   The partition of section 5.1 dates into invoices, under string comparison: among all keys that
   dates of four-digit years have, such a date lies in the period of its own key and of no other,
   and it lies in that one exactly when the period begins and ends in four-digit years.
   */
  lemma PeriodsPartitionDates(calendar: Calendar, date: Date, key: nat)
    requires FourDigitYear(date) && IsKeyOfFourDigitYears(key)
    ensures IsWithinPeriod(Render(date), GetBounds(calendar, key))
            <==> key == InvoiceKeyFor(calendar, date)
                 && FourDigitYear(GetBounds(calendar, key).periodStart) && FourDigitYear(GetBounds(calendar, key).periodEnd)
  {
    hide GetBounds, Render, StringAtMost, InvoiceKeyFor;
    var b := GetBounds(calendar, key);
    BoundsYears(calendar, key);
    KeyIsThePeriodOfTheDate(calendar, date, key);
    if FourDigitYear(b.periodStart) && FourDigitYear(b.periodEnd) {
      FourDigitOrder(b.periodStart, date);
      FourDigitOrder(date, b.periodEnd);
    } else if FourDigitYear(b.periodEnd) {
      NotInPeriodFrom999(calendar, date, key);
    } else if YearOf(b.periodEnd) == 10000 {
      NotInPeriodTo10000(calendar, date, key);
    } else {
      ThreeDigitYearComparison(b.periodStart, date);
      ThreeDigitYearComparison(b.periodEnd, date);
    }
  }

  lemma NotInPeriodFrom999(calendar: Calendar, date: Date, key: nat)
    requires FourDigitYear(date) && IsKeyOfFourDigitYears(key)
    requires YearOf(GetBounds(calendar, key).periodStart) == 999 && FourDigitYear(GetBounds(calendar, key).periodEnd)
    ensures !IsWithinPeriod(Render(date), GetBounds(calendar, key))
  {
    hide GetBounds, Render, StringAtMost;
    var b := GetBounds(calendar, key);
    ThreeDigitYearComparison(b.periodStart, date);
    FourDigitOrder(date, b.periodEnd);
    BoundsYears(calendar, key);
    PeriodEndsSoon(calendar, key);
    if date <= b.periodEnd {
      YearsFollowDates(date, b.periodEnd);
    }
  }

  lemma NotInPeriodTo10000(calendar: Calendar, date: Date, key: nat)
    requires FourDigitYear(date) && IsKeyOfFourDigitYears(key)
    requires YearOf(GetBounds(calendar, key).periodEnd) == 10000
    ensures !IsWithinPeriod(Render(date), GetBounds(calendar, key))
  {
    hide GetBounds, Render, StringAtMost;
    var b := GetBounds(calendar, key);
    BoundsYears(calendar, key);
    PeriodEndsSoon(calendar, key);
    FiveDigitYearComparison(b.periodEnd, date);
    if YearOf(b.periodStart) == 10000 {
      FiveDigitYearComparison(b.periodStart, date);
    } else {
      FourDigitOrder(b.periodStart, date);
      if b.periodStart <= date {
        YearsFollowDates(b.periodStart, date);
      }
    }
  }

  /** A period ends in the year it begins or the next. */
  lemma PeriodEndsSoon(calendar: Calendar, key: nat)
    requires key >= 12
    ensures YearOf(GetBounds(calendar, key).periodEnd) <= YearOf(GetBounds(calendar, key).periodStart) + 1
  {
    hide GetBounds;
    BoundsYears(calendar, key);
  }

  /**
   Every date of a four-digit year therefore lies in the period of its own key exactly when that
   period begins and ends in four-digit years.
   */
  lemma OwnPeriodHoldsTheDate(calendar: Calendar, date: Date)
    requires FourDigitYear(date)
    ensures var key := InvoiceKeyFor(calendar, date);
            && IsKey(key)
            && (IsWithinPeriod(Render(date), GetBounds(calendar, key))
                <==> FourDigitYear(GetBounds(calendar, key).periodStart) && FourDigitYear(GetBounds(calendar, key).periodEnd))
  {
    hide GetBounds, IsWithinPeriod, InvoiceKeyFor;
    OwnKeyIsOfFourDigitYears(calendar, date);
    PeriodsPartitionDates(calendar, date, InvoiceKeyFor(calendar, date));
  }

  /** Among three-digit keys it fails: a date of year 9985 also lies, as a string, in the invoice of January 999. */
  lemma ALateDateInAnEarlyInvoice(date: Date, key: nat)
    requires 9980 <= YearOf(date) <= 9989 && key == 12 * 999
    ensures IsWithinPeriod(Render(date), GetBounds(Cycle(20, 5), key))
  {
    hide GetBounds, Render, StringAtMost, MonthStart, MonthOf, DateOf, DaysInMonth;
    JanuaryInvoice(key);
    ThreeDigitYearComparison(GetBounds(Cycle(20, 5), key).periodStart, date);
    ThreeDigitYearComparison(GetBounds(Cycle(20, 5), key).periodEnd, date);
  }

  lemma JanuaryInvoice(month: nat)
    requires IsKey(month)
    ensures MonthOf(GetBounds(Cycle(20, 5), month).periodStart) == month - 1
    ensures MonthOf(GetBounds(Cycle(20, 5), month).periodEnd) == month
  {
    hide GetBounds, MonthStart;
    BoundsByDues(Cycle(20, 5), month);
    MonthAndDayRoundTrip(month - 1, 16);
    MonthAndDayRoundTrip(month, 15);
  }

  lemma YearsFollowDates(a: Date, b: Date)
    requires a <= b
    ensures YearOf(a) <= YearOf(b)
  {
    if MonthOf(b) < MonthOf(a) {
      MonthsOrderDates(b, a);
    }
  }

  /** One exception is real: with this cycle, 1 January 1000 lies in no invoice of these keys. */
  lemma FirstDayWithoutInvoice(key: nat, month: nat)
    requires IsKeyOfFourDigitYears(key) && month == 12 * 1000
    ensures FourDigitYear(MonthStart(month))
    ensures !IsWithinPeriod(Render(MonthStart(month)), GetBounds(Cycle(5, 10), key))
  {
    hide GetBounds, Render, IsWithinPeriod, InvoiceKeyFor, DaysInMonth, MonthStart;
    var calendar: Calendar, date := Cycle(5, 10), MonthStart(month);
    MonthAndDayRoundTrip(month, 1);
    PeriodsPartitionDates(calendar, date, key);
    KeyIsThePeriodOfTheDate(calendar, date, key);
    BoundsByDues(calendar, key);
    DueDayFive(key);
    DueDayFive(key - 1);
    if key > 12001 {
      MonthStartsIncrease(month, key - 1);
    }
    var start := GetBounds(calendar, key).periodStart;
    if start < date && MonthOf(start) >= 12000 {
      if MonthOf(start) > 12000 {
        MonthStartsIncrease(month, MonthOf(start));
      }
    }
  }

  /**
   So is the other: with the same cycle, 31 December 9999 belongs to the invoice that ends in
   year 10000, and lies neither in it nor in any other.
   */
  lemma LastDayWithoutInvoice(key: nat, month: nat)
    requires IsKeyOfFourDigitYears(key) && month / 12 == 9999 && month % 12 == 11
    ensures var date := DateOf(month, 31);
            && FourDigitYear(date) && InvoiceKeyFor(Cycle(5, 10), date) == month + 2
            && FourDigitYear(GetBounds(Cycle(5, 10), month + 2).periodStart)
            && !IsWithinPeriod(Render(date), GetBounds(Cycle(5, 10), key))
  {
    hide GetBounds, Render, IsWithinPeriod, InvoiceKeyFor, MonthStart, MonthOf, DaysInMonth, DateOf;
    var calendar: Calendar, date := Cycle(5, 10), DateOf(month, 31);
    DecemberOf9999(month);
    InvoiceAfterDecember(month);
    PeriodsPartitionDates(calendar, date, key);
  }

  lemma DecemberOf9999(month: nat)
    requires month / 12 == 9999 && month % 12 == 11
    ensures DaysInMonth(month) == 31
    ensures FourDigitYear(DateOf(month, 31)) && FourDigitYear(DateOf(month, 27))
  {
    hide MonthStart, MonthOf;
    MonthAndDayRoundTrip(month, 31);
    MonthAndDayRoundTrip(month, 27);
  }

  /** With due day 5 and closing ten days before, the invoice two months on runs from the 27th past the month's end. */
  lemma InvoiceAfterDecember(month: nat)
    requires DaysInMonth(month) == 31
    ensures InvoiceKeyFor(Cycle(5, 10), DateOf(month, 31)) == month + 2
    ensures GetBounds(Cycle(5, 10), month + 2).periodStart == DateOf(month, 27)
    ensures MonthOf(GetBounds(Cycle(5, 10), month + 2).periodEnd) >= month + 1
  {
    hide GetBounds, Render, InvoiceKeyFor, MonthStart, DaysInMonth;
    NextMonthStarts(month);
    NextMonthStarts(month + 1);
    BoundsByDues(Cycle(5, 10), month + 2);
    DueDayFive(month + 1);
    DueDayFive(month + 2);
    KeyIsThePeriodOfTheDate(Cycle(5, 10), DateOf(month, 31), month + 2);
    var end := GetBounds(Cycle(5, 10), month + 2).periodEnd;
    if MonthOf(end) < month + 1 {
      NextMonthStarts(MonthOf(end));
      MonthStartsIncrease(MonthOf(end), month + 1);
    }
  }

  lemma NextMonthStarts(month: nat)
    ensures MonthStart(month + 1) == MonthStart(month) + DaysInMonth(month)
  {
  }

  lemma DueDayFive(month: nat)
    ensures DueOf(Cycle(5, 10), month) == MonthStart(month) + 4
  {
  }

  // Which invoice a payment belongs to (InvoiceAllocation).

  function AllocateInvoice(calendar: Calendar, paymentDate: Date, explicitTarget: Option<nat>): (key: nat)
    requires MonthOf(paymentDate) >= 2
  {
    if explicitTarget.Some? then explicitTarget.value
    else
      KeyNotBeforeDate(calendar, paymentDate);
      var containing := InvoiceKeyFor(calendar, paymentDate);
      if GetBounds(calendar, containing).periodEnd == paymentDate then containing
      else PreviousKey(containing)
  }

  /** An invoice asked for is the one paid, whatever the date. */
  lemma AllocatesTheTarget(calendar: Calendar, paymentDate: Date, key: nat)
    requires MonthOf(paymentDate) >= 2
    ensures AllocateInvoice(calendar, paymentDate, Some(key)) == key
  {
  }

  lemma KeyNotBeforeDate(calendar: Calendar, date: Date)
    ensures InvoiceKeyFor(calendar, date) >= MonthOf(date)
  {
    hide InvoiceKeyFor, Render, StringAtMost;
    var threshold := date + calendar.closingDaysBeforeDue;
    assert InvoiceKeyFor(calendar, date) >= MonthOf(threshold) by {
      KeyByThreshold(calendar, date);
    }
    if MonthOf(threshold) < MonthOf(date) {
      MonthsOrderDates(threshold, date);
    }
  }

  lemma KeyByThreshold(calendar: Calendar, date: Date)
    ensures MonthOf(date + calendar.closingDaysBeforeDue) <= InvoiceKeyFor(calendar, date)
  {
    hide Render, StringAtMost, MonthOf;
  }

  /** Without a target, the invoice is the latest one already closed on the payment date. */
  lemma AllocatesTheLatestClosedInvoice(calendar: Calendar, paymentDate: Date, key: nat)
    requires MonthOf(paymentDate) >= 3 && IsKey(key)
    ensures var chosen := AllocateInvoice(calendar, paymentDate, None);
            && IsKey(chosen)
            && GetBounds(calendar, chosen).periodEnd <= paymentDate
            && (GetBounds(calendar, key).periodEnd <= paymentDate ==> key <= chosen)
  {
    hide GetBounds, InvoiceKeyFor, DueOf;
    var containing := InvoiceKeyFor(calendar, paymentDate);
    KeyNotBeforeDate(calendar, paymentDate);
    KeyIsThePeriodOfTheDate(calendar, paymentDate, containing);
    PeriodsAreContiguous(calendar, containing - 1);
    ClosingsIncrease(calendar, containing - 1, key);
    ClosingsIncrease(calendar, containing, key);
    PeriodEndBeforeEndExclusive(calendar, containing - 1);
  }

  lemma PeriodEndBeforeEndExclusive(calendar: Calendar, key: nat)
    requires IsKey(key)
    ensures GetBounds(calendar, key).periodEnd + 1 == GetBounds(calendar, key).endExclusive
  {
    hide DueOf;
  }

  lemma ClosingsIncrease(calendar: Calendar, a: nat, b: nat)
    requires IsKey(a) && IsKey(b)
    ensures a < b ==> GetBounds(calendar, a).periodEnd < GetBounds(calendar, b).periodEnd
  {
    hide GetBounds, DueOf;
    BoundsByDues(calendar, a);
    BoundsByDues(calendar, b);
    if a < b {
      DuesIncrease(calendar, a, b);
    }
  }
}
