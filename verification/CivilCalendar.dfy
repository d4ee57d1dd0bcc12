/**
 The proleptic Gregorian calendar on day numbers.

 A date is the number of days since 1 January of year 0; a month is the index
 `12 * year + (month - 1)`. One time zone is used throughout, so an instant at
 local midnight is its day number.
 */
module CivilCalendar {

  type Date = nat

  predicate IsLeapYear(year: nat) {
    year % 4 == 0 && (year % 100 != 0 || year % 400 == 0)
  }

  function DaysInMonth(month: nat): (days: nat)
    ensures 28 <= days <= 31
  {
    var m := month % 12;
    if m == 1 then (if IsLeapYear(month / 12) then 29 else 28)
    else if m == 3 || m == 5 || m == 8 || m == 10 then 30
    else 31
  }

  /** The day number of the first day of a month. */
  function MonthStart(month: nat): Date {
    if month == 0 then 0 else MonthStart(month - 1) + DaysInMonth(month - 1)
  }

  function MonthOfFrom(date: Date, month: nat): (r: nat)
    requires MonthStart(month) <= date
    ensures MonthStart(r) <= date < MonthStart(r + 1)
    decreases date - MonthStart(month)
  {
    if date < MonthStart(month + 1) then month else MonthOfFrom(date, month + 1)
  }

  function MonthOf(date: Date): (r: nat)
    ensures MonthStart(r) <= date < MonthStart(r + 1)
  {
    MonthOfFrom(date, 0)
  }

  function YearOf(date: Date): nat {
    MonthOf(date) / 12
  }

  /** Day of the month, from 1. */
  function DayOf(date: Date): (day: nat)
    ensures 1 <= day <= DaysInMonth(MonthOf(date))
    ensures date == MonthStart(MonthOf(date)) + day - 1
  {
    date - MonthStart(MonthOf(date)) + 1
  }

  function DateOf(month: nat, day: nat): Date
    requires 1 <= day
  {
    MonthStart(month) + day - 1
  }

  lemma {:induction false} MonthStartsIncrease(a: nat, b: nat)
    requires a < b
    ensures MonthStart(a) + DaysInMonth(a) <= MonthStart(b)
    decreases b
  {
    if a < b - 1 {
      MonthStartsIncrease(a, b - 1);
    }
  }

  /** A month and a day in it name one date, and the date names them back. */
  lemma MonthAndDayRoundTrip(month: nat, day: nat)
    requires 1 <= day <= DaysInMonth(month)
    ensures MonthOf(DateOf(month, day)) == month
    ensures DayOf(DateOf(month, day)) == day
  {
    var date := DateOf(month, day);
    var found := MonthOf(date);
    if found < month {
      MonthStartsIncrease(found, month);
    } else if month < found {
      MonthStartsIncrease(month, found);
    }
  }

  /** Dates in different months are ordered as their months are. */
  lemma MonthsOrderDates(a: Date, b: Date)
    requires MonthOf(a) < MonthOf(b)
    ensures a < b
  {
    MonthStartsIncrease(MonthOf(a), MonthOf(b));
  }

  /** `DayFromYear` of section 21.4.1.3 of ECMA-262, which `Date.UTC` is defined by. */
  function DayFromYear(year: int): int {
    365 * (year - 1970) + (year - 1969) / 4 - (year - 1901) / 100 + (year - 1601) / 400
  }

  /** The same count from 1 January of year 0. */
  function DaysBeforeYear(year: nat): nat {
    365 * year + (year + 3) / 4 + (year + 399) / 400 - (year + 99) / 100
  }

  /** Summing month lengths one by one gives the closed form of the standard. */
  lemma YearStartIsDayFromYear(year: nat)
    ensures MonthStart(12 * year) - MonthStart(12 * 1970) == DayFromYear(year)
  {
    YearStartClosedForm(year);
    YearStartClosedForm(1970);
    ClosedFormsAgree(year);
  }

  lemma ClosedFormsAgree(year: nat)
    ensures DaysBeforeYear(year) - DaysBeforeYear(1970) == DayFromYear(year)
  {
    QuotientShift(year + 3, 4, 493);
    QuotientShift(year + 99, 100, 20);
    QuotientShift(year + 399, 400, 5);
  }

  lemma QuotientShift(n: nat, d: nat, q: nat)
    requires d > 1
    ensures (n - d * q) / d == n / d - q
  {
    QuotientIs(n - d * q, d, n / d - q, n % d);
  }

  lemma {:induction false} YearStartClosedForm(year: nat)
    ensures MonthStart(12 * year) == DaysBeforeYear(year)
  {
    if year > 0 {
      YearStartClosedForm(year - 1);
      YearLength(year - 1);
      LeapYearsCounted(year - 1);
    }
  }

  lemma LeapYearsCounted(year: nat)
    ensures (year + 4) / 4 - (year + 100) / 100 + (year + 400) / 400
         == (year + 3) / 4 - (year + 99) / 100 + (year + 399) / 400 + (if IsLeapYear(year) then 1 else 0)
  {
    QuotientRises(year, 4);
    QuotientRises(year, 100);
    QuotientRises(year, 400);
    CenturiesAreFourfold(year);
  }

  lemma QuotientRises(year: nat, d: nat)
    requires d > 1
    ensures (year + d) / d == (year + d - 1) / d + (if year % d == 0 then 1 else 0)
  {
    QuotientStep(year + d - 1, d);
    QuotientIs(year + d, d, year / d + 1, year % d);
  }

  lemma CenturiesAreFourfold(year: nat)
    ensures year % 400 == 0 ==> year % 100 == 0
    ensures year % 100 == 0 ==> year % 4 == 0
  {
    if year % 100 == 0 {
      QuotientIs(year, 4, 25 * (year / 100), 0);
    }
    if year % 400 == 0 {
      QuotientIs(year, 100, 4 * (year / 400), 0);
    }
  }

  lemma QuotientStep(n: nat, d: nat)
    requires d > 1
    ensures (n + 1) / d == n / d + (if (n + 1) % d == 0 then 1 else 0)
  {
    var q, r := n / d, n % d;
    if r == d - 1 {
      QuotientIs(n + 1, d, q + 1, 0);
    } else {
      QuotientIs(n + 1, d, q, r + 1);
    }
  }

  lemma QuotientIs(n: int, d: nat, q: int, r: nat)
    requires r < d && n == q * d + r
    ensures n / d == q && n % d == r
  {
    var gap := q - n / d;
    assert gap * d == q * d - (n / d) * d == n % d - r;
    assert gap == 0;
  }

  lemma DaysInMonthOfYear(year: nat, m: nat)
    requires m < 12
    ensures DaysInMonth(12 * year + m)
         == (if m == 1 then (if IsLeapYear(year) then 29 else 28)
             else if m == 3 || m == 5 || m == 8 || m == 10 then 30 else 31)
  {
    QuotientIs(12 * year + m, 12, year, m);
  }

  lemma YearLength(year: nat)
    ensures MonthStart(12 * year + 12) == MonthStart(12 * year) + (if IsLeapYear(year) then 366 else 365)
  {
    HalfYear(year, 0);
    HalfYear(year, 6);
  }

  lemma HalfYear(year: nat, half: nat)
    requires half == 0 || half == 6
    ensures MonthStart(12 * year + half + 6)
         == MonthStart(12 * year + half) + (if half == 6 then 184 else if IsLeapYear(year) then 182 else 181)
  {
    hide IsLeapYear;
    var first := 12 * year + half;
    DaysInMonthOfYear(year, half);
    DaysInMonthOfYear(year, half + 1);
    DaysInMonthOfYear(year, half + 2);
    DaysInMonthOfYear(year, half + 3);
    DaysInMonthOfYear(year, half + 4);
    DaysInMonthOfYear(year, half + 5);
    assert MonthStart(first + 2) == MonthStart(first) + DaysInMonth(first) + DaysInMonth(first + 1);
    assert MonthStart(first + 4) == MonthStart(first + 2) + DaysInMonth(first + 2) + DaysInMonth(first + 3);
  }

  /** `add(date, count, 'month')`: the same day of a later month, clamped to its length. */
  function AddMonths(date: Date, count: nat): (r: Date)
    ensures MonthOf(r) == MonthOf(date) + count
    ensures DayOf(r) == if DayOf(date) <= DaysInMonth(MonthOf(date) + count)
                        then DayOf(date) else DaysInMonth(MonthOf(date) + count)
  {
    var month := MonthOf(date) + count;
    var day := if DayOf(date) <= DaysInMonth(month) then DayOf(date) else DaysInMonth(month);
    MonthAndDayRoundTrip(month, day);
    DateOf(month, day)
  }
}
