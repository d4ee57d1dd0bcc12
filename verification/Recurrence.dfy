/**
 Occurrences of a recurring rule. The generator steps from one date to the next, so a day of
 month that was clamped stays clamped; an end date is computed in one jump from the start.
 */
module Recurrence {
  import opened Results
  import opened CivilCalendar

  datatype Frequency = WEEKLY | MONTHLY | YEARLY

  /** Creating or rescheduling a rule refuses an interval below one. */
  type Interval = n: int | n >= 1 witness 1

  datatype Schedule = Schedule(startDate: Date, frequency: Frequency, interval: Interval)

  const DAYS_PER_WEEK := 7

  function AddOccurrences(s: Schedule, occurrences: nat): Date {
    match s.frequency
    case WEEKLY => s.startDate + s.interval * DAYS_PER_WEEK * occurrences
    case MONTHLY => AddMonths(s.startDate, s.interval * occurrences)
    case YEARLY => AddMonths(s.startDate, 12 * (s.interval * occurrences))
  }

  function NextOccurrence(s: Schedule): Date {
    AddOccurrences(s, 1)
  }

  /** The step of the generator, from any date. */
  function NextGenerationDate(s: Schedule, baseDate: Date): Date {
    match s.frequency
    case WEEKLY => baseDate + s.interval * 7
    case MONTHLY => AddMonths(baseDate, s.interval)
    case YEARLY => AddMonths(baseDate, 12 * s.interval)
  }

  function InstallmentEndDate(s: Schedule, installments: nat): Date
    requires installments >= 1
  {
    AddOccurrences(s, installments - 1)
  }

  /** The k-th date of the generator, counting from zero. */
  function Chain(s: Schedule, k: nat): Date {
    if k == 0 then s.startDate else NextGenerationDate(s, Chain(s, k - 1))
  }

  /** The projection's step and the generator's step are one. */
  lemma StepsAgree(s: Schedule, baseDate: Date)
    ensures NextOccurrence(s.(startDate := baseDate)) == NextGenerationDate(s, baseDate)
  {
  }

  /** Months in one step of a rule that steps by months. */
  function StepMonths(s: Schedule): (months: nat)
    ensures months >= 1
  {
    if s.frequency == YEARLY then 12 * s.interval else s.interval
  }

  lemma StepIsLater(s: Schedule, date: Date)
    ensures NextGenerationDate(s, date) > date
  {
    if s.frequency != WEEKLY {
      MonthsOrderDates(date, NextGenerationDate(s, date));
    }
  }

  lemma {:induction false} ChainIncreases(s: Schedule, j: nat, k: nat)
    requires j < k
    ensures Chain(s, j) < Chain(s, k)
    decreases k
  {
    hide NextGenerationDate;
    StepIsLater(s, Chain(s, k - 1));
    if j < k - 1 {
      ChainIncreases(s, j, k - 1);
    }
  }

  lemma ChainIsInjective(s: Schedule, j: nat, k: nat)
    ensures j < k <==> Chain(s, j) < Chain(s, k)
  {
    hide Chain;
    if j < k {
      ChainIncreases(s, j, k);
    } else if k < j {
      ChainIncreases(s, k, j);
    }
  }

  lemma OneMoreTimes(a: int, k: int)
    ensures a * (k + 1) == a * k + a
  {
  }

  lemma {:induction false} WeeklyChain(s: Schedule, k: nat)
    requires s.frequency == WEEKLY
    ensures Chain(s, k) == s.startDate + 7 * s.interval * k
  {
    if k > 0 {
      WeeklyChain(s, k - 1);
      OneMoreTimes(7 * s.interval, k - 1);
    }
  }

  /** The chain is in the month it should be, on a day no later than the start's. */
  lemma {:induction false} ChainMonth(s: Schedule, k: nat)
    requires s.frequency != WEEKLY
    ensures MonthOf(Chain(s, k)) == MonthOf(s.startDate) + StepMonths(s) * k
    ensures DayOf(Chain(s, k)) <= DayOf(s.startDate)
  {
    hide NextGenerationDate, StepMonths;
    if k > 0 {
      ChainMonth(s, k - 1);
      StepMovesMonths(s, Chain(s, k - 1));
      OneMoreTimes(StepMonths(s), k - 1);
    }
  }

  lemma StepMovesMonths(s: Schedule, date: Date)
    requires s.frequency != WEEKLY
    ensures MonthOf(NextGenerationDate(s, date)) == MonthOf(date) + StepMonths(s)
    ensures DayOf(NextGenerationDate(s, date)) <= DayOf(date)
  {
  }

  lemma JumpMonth(s: Schedule, k: nat)
    requires s.frequency != WEEKLY
    ensures AddOccurrences(s, k) == AddMonths(s.startDate, StepMonths(s) * k)
    ensures MonthOf(AddOccurrences(s, k)) == MonthOf(s.startDate) + StepMonths(s) * k
  {
    hide AddMonths;
    TwelveTimes(s.interval, k);
  }

  lemma TwelveTimes(a: int, k: int)
    ensures 12 * (a * k) == (12 * a) * k
  {
  }

  lemma SameMonthOrder(a: Date, b: Date)
    requires MonthOf(a) == MonthOf(b) && DayOf(a) <= DayOf(b)
    ensures a <= b
  {
  }

  /**
   The chained date drifts to the left of the jumped date, but never past it: each jump lies
   between its own chained date and the next one.
   */
  lemma JumpIsBetween(s: Schedule, k: nat)
    ensures Chain(s, k) <= AddOccurrences(s, k) < Chain(s, k + 1)
  {
    hide Chain, AddOccurrences;
    if s.frequency == WEEKLY {
      WeeklyJump(s, k);
    } else {
      ChainMonth(s, k);
      ChainMonth(s, k + 1);
      JumpMonth(s, k);
      OneMoreTimes(StepMonths(s), k);
      SameMonthOrder(Chain(s, k), AddOccurrences(s, k));
      MonthsOrderDates(AddOccurrences(s, k), Chain(s, k + 1));
    }
  }

  lemma WeeklyJump(s: Schedule, k: nat)
    requires s.frequency == WEEKLY
    ensures Chain(s, k) == AddOccurrences(s, k) < Chain(s, k + 1)
  {
    hide Chain;
    WeeklyChain(s, k);
    WeeklyChain(s, k + 1);
    OneMoreTimes(7 * s.interval, k);
    assert s.interval * DAYS_PER_WEEK * k == 7 * s.interval * k;
  }

  /** The drift is real: from 31 January the third monthly date is 28 March, the jump 31 March. */
  lemma ChainDrifts()
    ensures exists s: Schedule, k: nat :: Chain(s, k) < AddOccurrences(s, k)
  {
    var january := 12 * 2023;
    MonthAndDayRoundTrip(january, 31);
    var s := Schedule(DateOf(january, 31), MONTHLY, 1);
    FebruaryOf2023();
    ChainMonth(s, 1);
    assert DayOf(Chain(s, 1)) <= 28;
    assert Chain(s, 2) == NextGenerationDate(s, Chain(s, 1));
    JumpMonth(s, 2);
    ChainMonth(s, 2);
  }

  lemma FebruaryOf2023()
    ensures DaysInMonth(12 * 2023 + 1) == 28 && DaysInMonth(12 * 2023 + 2) == 31
  {
    DaysInMonthOfYear(2023, 1);
    DaysInMonthOfYear(2023, 2);
  }

  /** Exactly n chained dates lie up to the end date computed for n installments. */
  lemma EndDateCountsTheChain(s: Schedule, n: nat, k: nat)
    requires n >= 1
    ensures Chain(s, k) <= InstallmentEndDate(s, n) <==> k < n
  {
    hide Chain, AddOccurrences;
    JumpIsBetween(s, n - 1);
    ChainIsInjective(s, k, n - 1);
    ChainIsInjective(s, n - 1, k);
    ChainIsInjective(s, k, n);
  }

  // Every step of the end-date grid is at least a week.

  lemma JumpGap(s: Schedule, k: nat)
    ensures AddOccurrences(s, k) + 7 <= AddOccurrences(s, k + 1)
  {
    hide AddOccurrences, Chain;
    if s.frequency == WEEKLY {
      WeeklyChain(s, k);
      WeeklyChain(s, k + 1);
      WeeklyJump(s, k);
      WeeklyJump(s, k + 1);
      OneMoreTimes(7 * s.interval, k);
    } else {
      MonthlyJumpGap(s, k);
    }
  }

  lemma MonthlyJumpGap(s: Schedule, k: nat)
    requires s.frequency != WEEKLY
    ensures AddOccurrences(s, k) + 28 <= AddOccurrences(s, k + 1)
  {
    hide AddOccurrences, AddMonths, Chain, StepMonths;
    JumpMonth(s, k);
    JumpMonth(s, k + 1);
    StepsGrow(StepMonths(s), k);
    ClampedGap(s.startDate, StepMonths(s) * k, StepMonths(s) * (k + 1));
  }

  lemma StepsGrow(a: nat, k: nat)
    requires a >= 1
    ensures 0 <= a * k < a * (k + 1)
  {
    OneMoreTimes(a, k);
  }

  lemma ClampedGap(date: Date, i: nat, j: nat)
    requires i < j
    ensures AddMonths(date, i) + 28 <= AddMonths(date, j)
  {
    MonthStartsIncrease(MonthOf(date) + i, MonthOf(date) + j);
  }

  // The closed form.

  /** The occurrence number a query computes from a row's date; numbers start at one. */
  function OccurrencePosition(s: Schedule, date: Date): int {
    match s.frequency
    case MONTHLY => (MonthOf(date) - MonthOf(s.startDate)) / s.interval + 1
    case WEEKLY => (date - s.startDate) / (7 * s.interval) + 1
    case YEARLY => (YearOf(date) - YearOf(s.startDate)) / s.interval + 1
  }

  function InstallmentNumber(s: Schedule, count: Option<nat>, stored: Option<nat>, date: Date): Option<nat> {
    if count.None? then stored
    else
      var position := OccurrencePosition(s, date);
      if 1 <= position <= count.value then Some(position) else None
  }

  /** Division by a step is the slot an elapsed time falls in. */
  lemma QuotientIsSlot(elapsed: int, d: Interval, q: int)
    ensures elapsed / d == q <==> d * q <= elapsed < d * q + d
  {
    if d * q <= elapsed < d * q + d {
      QuotientIs(elapsed, d, q, elapsed - d * q);
    }
  }

  lemma YearsOfMonths(months: nat, years: nat)
    ensures (months + 12 * years) / 12 == months / 12 + years
  {
  }

  lemma MonthlyIsNumbered(s: Schedule, k: nat)
    requires s.frequency == MONTHLY
    ensures OccurrencePosition(s, Chain(s, k)) == k + 1
  {
    hide Chain;
    ChainMonth(s, k);
    QuotientIsSlot(MonthOf(Chain(s, k)) - MonthOf(s.startDate), s.interval, k);
  }

  lemma WeeklyIsNumbered(s: Schedule, k: nat)
    requires s.frequency == WEEKLY
    ensures OccurrencePosition(s, Chain(s, k)) == k + 1
  {
    hide Chain;
    WeeklyChain(s, k);
    QuotientIsSlot(Chain(s, k) - s.startDate, 7 * s.interval, k);
  }

  lemma YearlyIsNumbered(s: Schedule, k: nat)
    requires s.frequency == YEARLY
    ensures OccurrencePosition(s, Chain(s, k)) == k + 1
  {
    hide Chain;
    ChainMonth(s, k);
    TwelveTimes(s.interval, k);
    YearsOfMonths(MonthOf(s.startDate), s.interval * k);
    QuotientIsSlot(YearOf(Chain(s, k)) - YearOf(s.startDate), s.interval, k);
  }

  /** The k-th generated date is numbered k + 1, whatever clamping did to its day. */
  lemma ChainIsNumbered(s: Schedule, k: nat)
    ensures OccurrencePosition(s, Chain(s, k)) == k + 1
  {
    hide Chain, OccurrencePosition;
    match s.frequency
    case WEEKLY => WeeklyIsNumbered(s, k);
    case MONTHLY => MonthlyIsNumbered(s, k);
    case YEARLY => YearlyIsNumbered(s, k);
  }

  /** An installment number is shown for exactly the first `count` generated dates. */
  lemma NumberIsShownExactlyInsideThePlan(s: Schedule, count: nat, stored: Option<nat>, k: nat)
    ensures InstallmentNumber(s, Some(count), stored, Chain(s, k)) == if k < count then Some(k + 1) else None
  {
    ChainIsNumbered(s, k);
  }

  /** What has passed since the start, in the unit the rule counts in, and the length of one step. */
  function Elapsed(s: Schedule, date: Date): int {
    match s.frequency
    case MONTHLY => MonthOf(date) - MonthOf(s.startDate)
    case WEEKLY => date - s.startDate
    case YEARLY => YearOf(date) - YearOf(s.startDate)
  }

  function StepLength(s: Schedule): Interval {
    if s.frequency == WEEKLY then 7 * s.interval else s.interval
  }

  /**
   Any date, generated or moved by hand, has number p exactly when it lies in the p-th slot of
   whole steps from the start, before the start in slots numbered from zero down.
   */
  lemma PositionIsTheSlot(s: Schedule, date: Date, p: int)
    ensures OccurrencePosition(s, date) == p
            <==> StepLength(s) * (p - 1) <= Elapsed(s, date) < StepLength(s) * (p - 1) + StepLength(s)
  {
    QuotientIsSlot(Elapsed(s, date), StepLength(s), p - 1);
  }

  /** Moving a generated row within its month keeps its number. */
  lemma MovingWithinTheMonthKeepsTheNumber(s: Schedule, k: nat, date: Date)
    requires s.frequency != WEEKLY && MonthOf(date) == MonthOf(Chain(s, k))
    ensures OccurrencePosition(s, date) == k + 1
  {
    hide Chain;
    ChainIsNumbered(s, k);
  }

  /** A row of a rule without a plan shows the number stored with it. */
  lemma OutsideAPlanTheStoredNumberIsShown(s: Schedule, stored: Option<nat>, date: Date)
    ensures InstallmentNumber(s, None, stored, date) == stored
  {
  }

  /** Any date of a plan shows its own number, or none outside 1 to the count. */
  lemma InsideAPlanTheSlotIsShown(s: Schedule, count: nat, stored: Option<nat>, date: Date, p: nat)
    ensures InstallmentNumber(s, Some(count), stored, date) == Some(p)
            <==> 1 <= p <= count && StepLength(s) * (p - 1) <= Elapsed(s, date) < StepLength(s) * (p - 1) + StepLength(s)
  {
    hide OccurrencePosition, Elapsed, StepLength;
    PositionIsTheSlot(s, date, p);
  }
}
