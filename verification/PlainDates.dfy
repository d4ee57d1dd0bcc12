/**
 `YYYY-MM-DD` strings (full-date of section 5.6 of RFC 3339) compared the way
 JavaScript compares strings: code unit by code unit.
 */
module PlainDates {
  import opened CivilCalendar

  type PlainDate = string

  function Digit(n: nat): char
    requires n < 10
  {
    '0' + n as char
  }

  /** A number in a template literal: decimal, no padding. */
  function Decimal(n: nat): (s: string)
    ensures |s| >= 1
  {
    if n < 10 then [Digit(n)] else Decimal(n / 10) + [Digit(n % 10)]
  }

  /** `String(value).padStart(2, '0')`. */
  function Pad(n: nat): string {
    if n < 10 then "0" + Decimal(n) else Decimal(n)
  }

  function MonthNumber(month: nat): nat {
    month % 12 + 1
  }

  function Render(date: Date): PlainDate {
    Decimal(YearOf(date)) + "-" + Pad(MonthNumber(MonthOf(date))) + "-" + Pad(DayOf(date))
  }

  predicate StringLess(a: string, b: string) {
    if b == "" then false
    else if a == "" then true
    else a[0] < b[0] || (a[0] == b[0] && StringLess(a[1..], b[1..]))
  }

  predicate StringAtMost(a: string, b: string) {
    !StringLess(b, a)
  }

  // Reading a string back: split at '-', then Number.

  function NumberOf(s: string): nat {
    if s == "" then 0
    else 10 * NumberOf(s[..|s| - 1]) + (if '0' <= s[|s| - 1] <= '9' then (s[|s| - 1] - '0') as nat else 0)
  }

  function Split(s: string): (parts: seq<string>)
    ensures |parts| >= 1
  {
    if s == "" then [""]
    else
      var rest := Split(s[1..]);
      if s[0] == '-' then [""] + rest else [[s[0]] + rest[0]] + rest[1..]
  }

  function ParseDate(date: PlainDate): seq<nat> {
    var parts := Split(date);
    seq(|parts|, i requires 0 <= i < |parts| => NumberOf(parts[i]))
  }

  predicate IsNumeral(s: string) {
    forall i :: 0 <= i < |s| ==> '0' <= s[i] <= '9'
  }

  lemma {:induction false} DecimalIsNumeral(n: nat)
    ensures IsNumeral(Decimal(n)) && NumberOf(Decimal(n)) == n
  {
    if n >= 10 {
      DecimalIsNumeral(n / 10);
      var s := Decimal(n);
      assert s[..|s| - 1] == Decimal(n / 10);
    }
  }

  lemma PadIsNumeral(n: nat)
    ensures IsNumeral(Pad(n)) && NumberOf(Pad(n)) == n
  {
    DecimalIsNumeral(n);
    if n < 10 {
      assert Pad(n)[..1] == "0";
      assert "0"[..0] == "";
      assert NumberOf("0") == 0;
    }
  }

  lemma {:induction false} SplitNumeral(s: string, rest: string)
    requires IsNumeral(s)
    ensures Split(s + "-" + rest) == [s] + Split(rest)
    ensures Split(s) == [s]
  {
    if s == "" {
      assert s + "-" + rest == "-" + rest;
    } else {
      SplitNumeral(s[1..], rest);
      assert (s + "-" + rest)[1..] == s[1..] + "-" + rest;
      assert [s[0]] + s[1..] == s;
    }
  }

  lemma ParseParts(year: nat, month: nat, day: nat)
    ensures ParseDate(Decimal(year) + "-" + Pad(month) + "-" + Pad(day)) == [year, month, day]
  {
    hide NumberOf, Decimal, Pad;
    DecimalIsNumeral(year);
    PadIsNumeral(month);
    PadIsNumeral(day);
    var y, m, d := Decimal(year), Pad(month), Pad(day);
    SplitNumeral(y, m + "-" + d);
    SplitNumeral(m, d);
    SplitNumeral(d, "");
    assert y + "-" + m + "-" + d == y + "-" + (m + "-" + d);
    assert Split(y + "-" + m + "-" + d) == [y, m, d];
  }

  /** Parsing a rendered date gives a year, a month from 1 to 12 and a day, and these name the date. */
  lemma ParseRender(date: Date)
    ensures ParseDate(Render(date)) == [YearOf(date), MonthNumber(MonthOf(date)), DayOf(date)]
    ensures var parts := ParseDate(Render(date));
            && |parts| == 3 && 1 <= parts[1] <= 12 && 1 <= parts[2] <= 31
            && DateOf(12 * parts[0] + parts[1] - 1, parts[2]) == date
  {
    ParseParts(YearOf(date), MonthNumber(MonthOf(date)), DayOf(date));
    assert MonthOf(date) == 12 * YearOf(date) + MonthOf(date) % 12;
  }

  /** Distinct dates never render alike. */
  lemma RenderIsInjective(a: Date, b: Date)
    requires Render(a) == Render(b)
    ensures a == b
  {
    ParseRender(a);
    ParseRender(b);
    assert ParseDate(Render(a))[0] == ParseDate(Render(b))[0];
    assert ParseDate(Render(a))[1] == ParseDate(Render(b))[1];
    assert ParseDate(Render(a))[2] == ParseDate(Render(b))[2];
    assert MonthOf(a) == 12 * YearOf(a) + MonthOf(a) % 12;
    assert MonthOf(b) == 12 * YearOf(b) + MonthOf(b) % 12;
  }

  // The order.

  /** Of two strings exactly one comes first, unless they are one. */
  lemma {:induction false} StringOrderIsTotal(a: string, b: string)
    ensures !(StringLess(a, b) && StringLess(b, a))
    ensures a == b <==> !StringLess(a, b) && !StringLess(b, a)
  {
    if a != "" && b != "" {
      StringOrderIsTotal(a[1..], b[1..]);
      assert a == [a[0]] + a[1..] && b == [b[0]] + b[1..];
    }
  }

  lemma {:induction false} LessOfConcat(p: string, q: string, x: string, y: string)
    requires |p| == |q|
    ensures StringLess(p + x, q + y) <==> StringLess(p, q) || (p == q && StringLess(x, y))
  {
    if p == "" {
      assert p + x == x && q + y == y;
    } else {
      LessOfConcat(p[1..], q[1..], x, y);
      assert (p + x)[1..] == p[1..] + x && (q + y)[1..] == q[1..] + y;
      assert p == [p[0]] + p[1..] && q == [q[0]] + q[1..];
    }
  }

  lemma {:induction false} DecimalOrder(m: nat, n: nat)
    requires |Decimal(m)| == |Decimal(n)|
    ensures StringLess(Decimal(m), Decimal(n)) <==> m < n
  {
    if m < 10 && n < 10 {
      assert Decimal(m)[1..] == "" && Decimal(n)[1..] == "";
    } else {
      assert m >= 10 && n >= 10;
      DecimalOrder(m / 10, n / 10);
      var a, b := [Digit(m % 10)], [Digit(n % 10)];
      LessOfConcat(Decimal(m / 10), Decimal(n / 10), a, b);
      assert a[1..] == "" && b[1..] == "";
      DecimalIsNumeral(m / 10);
      DecimalIsNumeral(n / 10);
    }
  }

  lemma PadOrder(m: nat, n: nat)
    requires m < 100 && n < 100
    ensures |Pad(m)| == |Pad(n)| == 2
    ensures StringLess(Pad(m), Pad(n)) <==> m < n
    ensures Pad(m) == Pad(n) <==> m == n
  {
    PadIsNumeral(m);
    PadIsNumeral(n);
    PadIsTwoDigits(m);
    PadIsTwoDigits(n);
    var a, b := [Digit(m % 10)], [Digit(n % 10)];
    LessOfConcat([Digit(m / 10)], [Digit(n / 10)], a, b);
    assert a[1..] == "" && b[1..] == "";
    assert [Digit(m / 10)][1..] == "" && [Digit(n / 10)][1..] == "";
  }

  lemma PadIsTwoDigits(n: nat)
    requires n < 100
    ensures Pad(n) == [Digit(n / 10)] + [Digit(n % 10)]
  {
    if n < 10 {
      assert n / 10 == 0 && n % 10 == n;
      assert Pad(n) == ['0'] + [Digit(n)];
    } else {
      assert n / 10 < 10;
      assert Decimal(n / 10) == [Digit(n / 10)];
    }
  }

  /** Parts of equal lengths, joined by dashes, are compared one after another. */
  lemma LessOfParts(ya: string, ma: string, da: string, yb: string, mb: string, db: string)
    requires |ya| == |yb| && |ma| == |mb|
    ensures StringLess(ya + "-" + ma + "-" + da, yb + "-" + mb + "-" + db)
            <==> StringLess(ya, yb) || (ya == yb && (StringLess(ma, mb) || (ma == mb && StringLess(da, db))))
  {
    hide StringLess;
    assert ya + "-" + ma + "-" + da == ya + ("-" + (ma + ("-" + da)));
    assert yb + "-" + mb + "-" + db == yb + ("-" + (mb + ("-" + db)));
    LessOfConcat(ya, yb, "-" + (ma + ("-" + da)), "-" + (mb + ("-" + db)));
    LessOfDash(ma + ("-" + da), mb + ("-" + db));
    LessOfConcat(ma, mb, "-" + da, "-" + db);
    LessOfDash(da, db);
  }

  /** With years of one length, string order is date order. */
  lemma RenderOrder(a: Date, b: Date)
    requires |Decimal(YearOf(a))| == |Decimal(YearOf(b))|
    ensures StringLess(Render(a), Render(b)) <==> a < b
  {
    hide StringLess, Decimal, Pad;
    PadOrder(MonthNumber(MonthOf(a)), MonthNumber(MonthOf(b)));
    LessOfParts(Decimal(YearOf(a)), Pad(MonthNumber(MonthOf(a))), Pad(DayOf(a)),
                Decimal(YearOf(b)), Pad(MonthNumber(MonthOf(b))), Pad(DayOf(b)));
    DecimalOrder(YearOf(a), YearOf(b));
    DecimalIsNumeral(YearOf(a));
    DecimalIsNumeral(YearOf(b));
    PadOrder(DayOf(a), DayOf(b));
    CivilOrder(a, b);
  }

  lemma LessOfDash(x: string, y: string)
    ensures StringLess("-" + x, "-" + y) <==> StringLess(x, y)
  {
    assert ("-" + x)[1..] == x && ("-" + y)[1..] == y;
  }

  lemma CivilOrder(a: Date, b: Date)
    ensures a < b <==>
      YearOf(a) < YearOf(b)
      || (YearOf(a) == YearOf(b) && (MonthNumber(MonthOf(a)) < MonthNumber(MonthOf(b))
                                     || (MonthNumber(MonthOf(a)) == MonthNumber(MonthOf(b)) && DayOf(a) < DayOf(b))))
  {
    var m, n := MonthOf(a), MonthOf(b);
    assert m == 12 * (m / 12) + m % 12 && n == 12 * (n / 12) + n % 12;
    if m < n {
      MonthsOrderDates(a, b);
    } else if n < m {
      MonthsOrderDates(b, a);
    }
  }

  predicate FourDigitYear(date: Date) {
    1000 <= YearOf(date) <= 9999
  }

  lemma FourDigits(n: nat)
    ensures 1000 <= n <= 9999 <==> |Decimal(n)| == 4
    ensures 100 <= n <= 999 <==> |Decimal(n)| == 3
  {
    DecimalLength(n);
    DecimalLength(n / 10);
    DecimalLength(n / 100);
    DecimalLength(n / 1000);
  }

  lemma DecimalLength(n: nat)
    ensures |Decimal(n)| == if n < 10 then 1 else |Decimal(n / 10)| + 1
  {
  }

  /** RFC 3339, section 5.1: for four-digit years, string order is chronological. */
  lemma FourDigitOrder(a: Date, b: Date)
    requires FourDigitYear(a) && FourDigitYear(b)
    ensures StringLess(Render(a), Render(b)) <==> a < b
    ensures StringAtMost(Render(a), Render(b)) <==> a <= b
  {
    FourDigits(YearOf(a));
    FourDigits(YearOf(b));
    RenderOrder(a, b);
    RenderOrder(b, a);
  }

  /** A three-digit year sorts by the first three digits of a four-digit one, and before it on a tie. */
  lemma ThreeDigitYearComparison(early: Date, date: Date)
    requires 100 <= YearOf(early) <= 999 && FourDigitYear(date)
    ensures StringAtMost(Render(early), Render(date)) <==> YearOf(early) <= YearOf(date) / 10
    ensures StringAtMost(Render(date), Render(early)) <==> YearOf(date) / 10 < YearOf(early)
  {
    var y := YearOf(date);
    FourDigits(y);
    FourDigits(YearOf(early));
    DecimalLength(y);
    ShorterYearComparison(early, date, [Digit(y % 10)]);
  }

  /** Year 10000 sorts as 1000 does, and after it on a tie. */
  lemma FiveDigitYearComparison(late: Date, date: Date)
    requires YearOf(late) == 10000 && FourDigitYear(date)
    ensures StringAtMost(Render(late), Render(date)) <==> YearOf(date) > 1000
    ensures StringAtMost(Render(date), Render(late)) <==> YearOf(date) == 1000
  {
    FourDigits(YearOf(date));
    FourDigits(1000);
    TenThousand();
    ShorterYearComparison(date, late, [Digit(0)]);
  }

  lemma TenThousand()
    ensures Decimal(10000) == Decimal(1000) + [Digit(0)] && 10000 / 10 == 1000
  {
  }

  /** Dates whose years differ by one digit: the shorter year against the longer one without its last digit. */
  lemma ShorterYearComparison(short: Date, long: Date, digit: string)
    requires |digit| == 1 && IsNumeral(digit) && Decimal(YearOf(long)) == Decimal(YearOf(long) / 10) + digit
    requires |Decimal(YearOf(short))| == |Decimal(YearOf(long) / 10)|
    ensures StringLess(Render(short), Render(long)) <==> YearOf(short) <= YearOf(long) / 10
    ensures StringLess(Render(long), Render(short)) <==> YearOf(long) / 10 < YearOf(short)
  {
    hide Decimal, Pad, StringLess;
    var a, b := YearOf(short), YearOf(long) / 10;
    var shortRest := "-" + Pad(MonthNumber(MonthOf(short))) + "-" + Pad(DayOf(short));
    var longRest := digit + "-" + Pad(MonthNumber(MonthOf(long))) + "-" + Pad(DayOf(long));
    assert Render(short) == Decimal(a) + shortRest;
    assert Render(long) == Decimal(b) + longRest;
    LessOfConcat(Decimal(a), Decimal(b), shortRest, longRest);
    LessOfConcat(Decimal(b), Decimal(a), longRest, shortRest);
    DecimalOrder(a, b);
    DecimalOrder(b, a);
    DecimalIsNumeral(a);
    DecimalIsNumeral(b);
    DashBeforeDigit(shortRest, longRest);
  }

  lemma DashBeforeDigit(a: string, b: string)
    requires a != "" && b != "" && a[0] == '-' && '0' <= b[0] <= '9'
    ensures StringLess(a, b) && !StringLess(b, a)
  {
  }
}
