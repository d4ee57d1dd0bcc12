/** Inferring how many installments an end date stands for, by trying them in turn. */
module InstallmentCount {
  import opened Results
  import opened CivilCalendar
  import opened PlainDates
  import opened Recurrence

  const MAX_INSTALLMENTS := 365

  /** The local calendar date of the n-th end date, on one of two grids. */
  type Grid = nat -> PlainDate

  predicate Matches(calendar: Grid, stored: Grid, target: PlainDate, n: nat) {
    calendar(n) == target || stored(n) == target
  }

  /** Later counts end later, as strings. */
  ghost predicate Increases(grid: Grid) {
    forall m: nat, n: nat :: 1 <= m < n <= MAX_INSTALLMENTS ==> StringLess(grid(m), grid(n))
  }

  /** Both grids are already past the target at some earlier count. */
  predicate GivesUpBefore(calendar: Grid, stored: Grid, target: PlainDate, n: nat) {
    exists m: nat :: 1 <= m < n && StringLess(target, calendar(m)) && StringLess(target, stored(m))
  }

  /**
   The answer is the least count that matches on either grid. No answer means there is none
   in range, provided both grids increase: that is what makes giving up early sound.
   */
  method InferInstallmentCount(calendar: Grid, stored: Grid, target: PlainDate) returns (count: Option<nat>)
    ensures count.Some? ==>
              && 1 <= count.value <= 365 && Matches(calendar, stored, target, count.value)
              && forall m: nat :: 1 <= m < count.value ==> !Matches(calendar, stored, target, m)
    ensures Increases(calendar) && Increases(stored) ==>
              (count.None? <==> forall n: nat :: 1 <= n <= 365 ==> !Matches(calendar, stored, target, n))
    ensures count.Some? ==> !GivesUpBefore(calendar, stored, target, count.value)
    ensures count.None? ==>
              forall n: nat :: 1 <= n <= MAX_INSTALLMENTS && Matches(calendar, stored, target, n) ==>
                GivesUpBefore(calendar, stored, target, n)
  {
    for installments := 1 to MAX_INSTALLMENTS + 1
      invariant forall m: nat :: 1 <= m < installments ==> !Matches(calendar, stored, target, m)
      invariant !GivesUpBefore(calendar, stored, target, installments)
    {
      var calendarDate, storedDate := calendar(installments), stored(installments);
      if calendarDate == target || storedDate == target {
        return Some(installments);
      }
      if StringLess(target, calendarDate) && StringLess(target, storedDate) {
        if Increases(calendar) && Increases(stored) {
          NothingLaterMatches(calendar, stored, target, installments);
        }
        return None;
      }
    }
    return None;
  }

  lemma {:induction false} LessIsTransitive(a: string, b: string, c: string)
    requires StringLess(a, b) && StringLess(b, c)
    ensures StringLess(a, c)
    decreases |a|
  {
    if a != [] && b != [] && c != [] && a[0] == b[0] == c[0] {
      LessIsTransitive(a[1..], b[1..], c[1..]);
    }
  }

  lemma {:induction false} LessIsIrreflexive(a: string)
    ensures !StringLess(a, a)
  {
    if a != [] { LessIsIrreflexive(a[1..]); }
  }

  lemma NothingLaterMatches(calendar: Grid, stored: Grid, target: PlainDate, n: nat)
    requires Increases(calendar) && Increases(stored) && 1 <= n <= MAX_INSTALLMENTS
    requires StringLess(target, calendar(n)) && StringLess(target, stored(n))
    ensures forall m: nat :: n <= m <= MAX_INSTALLMENTS ==> !Matches(calendar, stored, target, m)
  {
    hide StringLess;
    LessIsIrreflexive(target);
    forall m: nat | n <= m <= MAX_INSTALLMENTS
      ensures !Matches(calendar, stored, target, m)
    {
      if n < m {
        LessIsTransitive(target, calendar(n), calendar(m));
        LessIsTransitive(target, stored(n), stored(m));
      }
    }
  }

  // The grids of a schedule.

  function CalendarGrid(s: Schedule): Grid {
    (n: nat) => if n == 0 then Render(s.startDate) else Render(InstallmentEndDate(s, n))
  }

  function Rendered(days: nat -> Date): Grid {
    (n: nat) => Render(days(n))
  }

  /** Stored instants may fall on the day before or after the calendar's, never further off. */
  ghost predicate IsNear(s: Schedule, days: nat -> Date, n: nat)
    requires n >= 1
  {
    days(n) - 1 <= InstallmentEndDate(s, n) <= days(n) + 1
  }

  lemma {:induction false} GridsGoUp(s: Schedule, m: nat, n: nat)
    requires 1 <= m < n
    ensures InstallmentEndDate(s, m) + 7 <= InstallmentEndDate(s, n)
    decreases n
  {
    hide AddOccurrences;
    JumpGap(s, n - 2);
    if m < n - 1 {
      GridsGoUp(s, m, n - 1);
    }
  }

  ghost predicate IsFourDigitGrid(s: Schedule, days: nat -> Date, last: nat) {
    forall m: nat :: 1 <= m <= last ==>
      FourDigitYear(InstallmentEndDate(s, m)) && FourDigitYear(days(m)) && IsNear(s, days, m)
  }

  /** Within four-digit years both grids of a schedule increase. */
  lemma GridsIncrease(s: Schedule, days: nat -> Date)
    requires IsFourDigitGrid(s, days, MAX_INSTALLMENTS)
    ensures Increases(CalendarGrid(s)) && Increases(Rendered(days))
  {
    hide StringLess, Render, AddOccurrences;
    forall m: nat, n: nat | 1 <= m < n <= MAX_INSTALLMENTS
      ensures StringLess(CalendarGrid(s)(m), CalendarGrid(s)(n)) && StringLess(Rendered(days)(m), Rendered(days)(n))
    {
      GridsGoUp(s, m, n);
      assert IsNear(s, days, m) && IsNear(s, days, n);
      FourDigitOrder(InstallmentEndDate(s, m), InstallmentEndDate(s, n));
      FourDigitOrder(days(m), days(n));
    }
  }

  ghost predicate IsNearGrid(s: Schedule, days: nat -> Date, last: nat) {
    forall m: nat :: 1 <= m <= last ==> IsNear(s, days, m)
  }

  /** Dates far enough apart never render alike, whatever their years. */
  lemma EarlierCountsDoNotMatch(s: Schedule, days: nat -> Date, n: nat, m: nat, end: Date)
    requires IsNearGrid(s, days, n) && 1 <= m < n
    requires end == InstallmentEndDate(s, n) || end == days(n)
    ensures !Matches(CalendarGrid(s), Rendered(days), Render(end), m)
  {
    hide Render, AddOccurrences;
    GridsGoUp(s, m, n);
    assert IsNear(s, days, m) && IsNear(s, days, n);
    if Render(end) == Render(InstallmentEndDate(s, m)) { RenderIsInjective(end, InstallmentEndDate(s, m)); }
    if Render(end) == Render(days(m)) { RenderIsInjective(end, days(m)); }
  }

  /** In four-digit years no earlier count lies past the target on either grid. */
  lemma EarlierCountsAreNotPast(s: Schedule, days: nat -> Date, n: nat, m: nat, end: Date)
    requires IsFourDigitGrid(s, days, n) && 1 <= m < n
    requires end == InstallmentEndDate(s, n) || end == days(n)
    ensures !StringLess(Render(end), CalendarGrid(s)(m)) && !StringLess(Render(end), Rendered(days)(m))
  {
    hide StringLess, Render, AddOccurrences;
    GridsGoUp(s, m, n);
    assert IsNear(s, days, m) && IsNear(s, days, n);
    FourDigitOrder(end, InstallmentEndDate(s, m));
    FourDigitOrder(end, days(m));
  }

  /**
   Inferring from the end date of n installments, on either grid, gives back n exactly when the
   loop does not give up before: when at no earlier count both grids are, as strings, past the end
   date. In four-digit years that never happens.
   */
  method InferFromEndDate(s: Schedule, days: nat -> Date, n: nat, end: Date) returns (count: Option<nat>)
    requires 1 <= n <= MAX_INSTALLMENTS && IsNearGrid(s, days, n)
    requires end == InstallmentEndDate(s, n) || end == days(n)
    ensures count == Some(n) <==> !GivesUpBefore(CalendarGrid(s), Rendered(days), Render(end), n)
    ensures IsFourDigitGrid(s, days, n) ==> count == Some(n)
  {
    hide StringLess, Render, AddOccurrences, Increases, GivesUpBefore, Matches, IsFourDigitGrid, IsNearGrid, CalendarGrid, Rendered,
         InstallmentEndDate;
    NothingEarlier(s, days, n, end);
    var calendar, stored, target := CalendarGrid(s), Rendered(days), Render(end);
    assert Matches(calendar, stored, target, n);
    count := InferInstallmentCount(calendar, stored, target);
  }

  lemma NothingEarlier(s: Schedule, days: nat -> Date, n: nat, end: Date)
    requires n >= 1 && IsNearGrid(s, days, n)
    requires end == InstallmentEndDate(s, n) || end == days(n)
    ensures forall m: nat :: 1 <= m < n ==> !Matches(CalendarGrid(s), Rendered(days), Render(end), m)
    ensures Matches(CalendarGrid(s), Rendered(days), Render(end), n)
    ensures IsFourDigitGrid(s, days, n) ==> !GivesUpBefore(CalendarGrid(s), Rendered(days), Render(end), n)
  {
    hide StringLess, Render, AddOccurrences, IsFourDigitGrid, IsNearGrid;
    forall m: nat | 1 <= m < n
      ensures !Matches(CalendarGrid(s), Rendered(days), Render(end), m)
      ensures IsFourDigitGrid(s, days, n) ==> !StringLess(Render(end), CalendarGrid(s)(m))
    {
      EarlierCountsDoNotMatch(s, days, n, m, end);
      if IsFourDigitGrid(s, days, n) {
        EarlierCountsAreNotPast(s, days, n, m, end);
      }
    }
  }

  /**
   In five-digit years it does: two yearly installments 8000 years apart end on 1 January 10000,
   which as a string comes before the first one, on 1 January 2000.
   */
  lemma FiveDigitYearsGiveUp(s: Schedule, january: nat)
    requires january == 12 * 2000 && s == Schedule(DateOf(january, 1), YEARLY, 8000)
    ensures var grid := CalendarGrid(s);
            GivesUpBefore(grid, grid, Render(InstallmentEndDate(s, 2)), 2)
  {
    hide StringLess, Render, MonthStart, DateOf, AddOccurrences, MonthOf;
    var grid, end := CalendarGrid(s), InstallmentEndDate(s, 2);
    var first := InstallmentEndDate(s, 1);
    FarEndDates(s, january);
    FiveDigitYearComparison(end, first);
    AtMostIsNotLess(first, end);
    assert StringLess(Render(end), grid(1));
  }

  lemma FarEndDates(s: Schedule, january: nat)
    requires january == 12 * 2000 && s == Schedule(DateOf(january, 1), YEARLY, 8000)
    ensures YearOf(InstallmentEndDate(s, 1)) == 2000 && YearOf(InstallmentEndDate(s, 2)) == 10000
  {
    hide MonthStart, MonthOf, DateOf, AddOccurrences, AddMonths;
    MonthAndDayRoundTrip(january, 1);
    JumpMonth(s, 0);
    JumpMonth(s, 1);
  }

  lemma AtMostIsNotLess(a: Date, b: Date)
    ensures StringAtMost(Render(a), Render(b)) <==> !StringLess(Render(b), Render(a))
  {
  }
}
