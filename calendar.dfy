/** Proleptic Gregorian calendar arithmetic as Python's `datetime` and `calendar` modules
    do it: leap years, month lengths, ordinals (`date.toordinal()`), weekdays (Monday = 0)
    and adding or subtracting whole days (`timedelta(days=n)`). */
module Calendar {
  import opened Wrappers
  import opened Text

  datatype Date = Date(year: int, month: int, day: int)

  predicate IsLeapYear(y: int)
  {
    y % 4 == 0 && (y % 100 != 0 || y % 400 == 0)
  }

  /** `calendar.monthrange(y, m)[1]`. */
  function DaysInMonth(y: int, m: int): (n: int)
    requires 1 <= m <= 12
    ensures 28 <= n <= 31
    ensures m == 2 ==> (n == 29 <==> IsLeapYear(y))
  {
    if m == 2 then (if IsLeapYear(y) then 29 else 28)
    else if m == 4 || m == 6 || m == 9 || m == 11 then 30
    else 31
  }

  /** A date `datetime` accepts (the model does not bound the year above). */
  predicate Valid(d: Date)
  {
    d.year >= 1 && 1 <= d.month <= 12 && 1 <= d.day <= DaysInMonth(d.year, d.month)
  }

  /** Days in all years before `y`, a year at a time. */
  function DaysBeforeYear(y: int): (n: int)
    requires y >= 1
    ensures n >= 0
  {
    if y == 1 then 0 else DaysBeforeYear(y - 1) + (if IsLeapYear(y - 1) then 366 else 365)
  }

  /** The closed form Python's `_days_before_year` uses. */
  lemma {:induction false} DaysBeforeYearClosed(y: int)
    requires y >= 1
    ensures DaysBeforeYear(y) == (y - 1) * 365 + (y - 1) / 4 - (y - 1) / 100 + (y - 1) / 400
  {
    if y > 1 {
      var p := y - 2;
      var x := p + 1;
      DaysBeforeYearClosed(y - 1);
      DivStep(p);
      DivisorChain(x);
      assert x * 365 == p * 365 + 365;
      var step := if IsLeapYear(x) then 366 else 365;
      assert DaysBeforeYear(y) == DaysBeforeYear(y - 1) + step;
      if x % 400 == 0 {
        assert step == 366 && x / 400 == p / 400 + 1 && x / 100 == p / 100 + 1 && x / 4 == p / 4 + 1;
      } else if x % 100 == 0 {
        assert step == 365 && x / 400 == p / 400 && x / 100 == p / 100 + 1 && x / 4 == p / 4 + 1;
      } else if x % 4 == 0 {
        assert step == 366 && x / 400 == p / 400 && x / 100 == p / 100 && x / 4 == p / 4 + 1;
      } else {
        assert step == 365 && x / 400 == p / 400 && x / 100 == p / 100 && x / 4 == p / 4;
      }
    }
  }

  /** Days in the months of year `y` before month `m`. */
  function DaysBeforeMonth(y: int, m: int): int
    requires 1 <= m <= 12
  {
    var common :=
      if m == 1 then 0 else if m == 2 then 31 else if m == 3 then 59 else if m == 4 then 90
      else if m == 5 then 120 else if m == 6 then 151 else if m == 7 then 181
      else if m == 8 then 212 else if m == 9 then 243 else if m == 10 then 273
      else if m == 11 then 304 else 334;
    common + (if m > 2 && IsLeapYear(y) then 1 else 0)
  }

  /** `date.toordinal()`: 0001-01-01 is day 1. */
  function Ordinal(d: Date): int
    requires Valid(d)
  {
    DaysBeforeYear(d.year) + DaysBeforeMonth(d.year, d.month) + d.day
  }

  /** `date.weekday()`: Monday is 0 and Sunday is 6. */
  function Weekday(d: Date): int
    requires Valid(d)
  {
    (Ordinal(d) + 6) % 7
  }

  predicate IsWeekday(d: Date)
    requires Valid(d)
  {
    Weekday(d) < 5
  }

  /** A multiple of 400 is a multiple of 100, and a multiple of 100 one of 4. */
  lemma DivisorChain(x: int)
    ensures x % 400 == 0 ==> x % 100 == 0
    ensures x % 100 == 0 ==> x % 4 == 0
  {
    if x % 400 == 0 {
      var q := x / 400;
      assert x == 100 * (4 * q);
    }
    if x % 100 == 0 {
      var q := x / 100;
      assert x == 4 * (25 * q);
    }
  }

  /** Stepping a dividend by one bumps each quotient exactly when the divisor divides it. */
  lemma DivStep(p: int)
    requires p >= 0
    ensures (p + 1) / 4 == p / 4 + (if (p + 1) % 4 == 0 then 1 else 0)
    ensures (p + 1) / 100 == p / 100 + (if (p + 1) % 100 == 0 then 1 else 0)
    ensures (p + 1) / 400 == p / 400 + (if (p + 1) % 400 == 0 then 1 else 0)
  {
  }

  lemma YearLength(y: int)
    requires y >= 1
    ensures DaysBeforeYear(y + 1) == DaysBeforeYear(y) + (if IsLeapYear(y) then 366 else 365)
  {
  }

  lemma OrdinalPositive(d: Date)
    requires Valid(d)
    ensures Ordinal(d) >= 1
  {
  }

  /** The calendar day after `d`. */
  function NextDay(d: Date): (r: Date)
    requires Valid(d)
    ensures Valid(r) && Ordinal(r) == Ordinal(d) + 1
  {
    if d.day < DaysInMonth(d.year, d.month) then Date(d.year, d.month, d.day + 1)
    else if d.month < 12 then Date(d.year, d.month + 1, 1)
    else
      YearLength(d.year);
      Date(d.year + 1, 1, 1)
  }

  /** The calendar day before `d` (there is none before 0001-01-01). */
  function PrevDay(d: Date): (r: Date)
    requires Valid(d) && Ordinal(d) > 1
    ensures Valid(r) && Ordinal(r) == Ordinal(d) - 1
  {
    if d.day > 1 then Date(d.year, d.month, d.day - 1)
    else if d.month > 1 then Date(d.year, d.month - 1, DaysInMonth(d.year, d.month - 1))
    else
      assert d.year > 1;
      YearLength(d.year - 1);
      Date(d.year - 1, 12, 31)
  }

  /** `d + timedelta(days=n)`. */
  function AddDays(d: Date, n: int): (r: Date)
    requires Valid(d) && Ordinal(d) + n >= 1
    ensures Valid(r) && Ordinal(r) == Ordinal(d) + n
    decreases if n >= 0 then n else -n
  {
    if n == 0 then d
    else if n > 0 then AddDays(NextDay(d), n - 1)
    else AddDays(PrevDay(d), n + 1)
  }

  /** One day more is the day after. */
  lemma {:induction false} AddDaysSucc(d: Date, k: nat)
    requires Valid(d)
    ensures AddDays(d, k + 1) == NextDay(AddDays(d, k))
    decreases k
  {
    OrdinalPositive(d);
    var next := NextDay(d);
    if k == 0 {
      assert AddDays(d, 1) == AddDays(next, 0);
    } else {
      AddDaysSucc(next, k - 1);
      assert AddDays(d, k + 1) == AddDays(next, k);
      assert AddDays(d, k) == AddDays(next, k - 1);
    }
  }

  /** Each year adds at least 365 days. */
  lemma {:induction false} DaysBeforeYearGrows(a: int, b: int)
    requires 1 <= a <= b
    ensures DaysBeforeYear(a) + 365 * (b - a) <= DaysBeforeYear(b)
    decreases b - a
  {
    if a < b {
      YearLength(a);
      DaysBeforeYearGrows(a + 1, b);
    }
  }

  /** A month ends where the next one begins; December ends with the year. */
  lemma MonthEnd(y: int, m: int)
    requires 1 <= m <= 12
    ensures DaysBeforeMonth(y, m) + DaysInMonth(y, m) ==
      if m == 12 then (if IsLeapYear(y) then 366 else 365) else DaysBeforeMonth(y, m + 1)
  {
  }

  lemma MonthsGrow(y: int, m1: int, m2: int)
    requires 1 <= m1 <= m2 <= 12
    ensures DaysBeforeMonth(y, m1) <= DaysBeforeMonth(y, m2)
  {
  }

  /** A date of an earlier year has a smaller ordinal. */
  lemma EarlierYear(x: Date, z: Date)
    requires Valid(x) && Valid(z) && x.year < z.year
    ensures Ordinal(x) < Ordinal(z)
  {
    MonthEnd(x.year, x.month);
    MonthsGrow(x.year, x.month, 12);
    MonthEnd(x.year, 12);
    YearLength(x.year);
    DaysBeforeYearGrows(x.year + 1, z.year);
    assert DaysBeforeMonth(x.year, x.month) + x.day <= DaysBeforeYear(x.year + 1) - DaysBeforeYear(x.year);
  }

  /** A date of an earlier month of the same year has a smaller ordinal. */
  lemma EarlierMonth(x: Date, z: Date)
    requires Valid(x) && Valid(z) && x.year == z.year && x.month < z.month
    ensures Ordinal(x) < Ordinal(z)
  {
    MonthEnd(x.year, x.month);
    MonthsGrow(x.year, x.month + 1, z.month);
  }

  /** Different dates have different ordinals. */
  lemma OrdinalInjective(a: Date, b: Date)
    requires Valid(a) && Valid(b) && Ordinal(a) == Ordinal(b)
    ensures a == b
  {
    if a.year < b.year {
      EarlierYear(a, b);
    } else if b.year < a.year {
      EarlierYear(b, a);
    } else if a.month < b.month {
      EarlierMonth(a, b);
    } else if b.month < a.month {
      EarlierMonth(b, a);
    }
  }

  /** Less than a year after a date of year 9998 or before is still at most year 9999. */
  lemma YearAfterDays(d: Date, n: int)
    requires Valid(d) && d.year <= 9998 && 0 <= n <= 365
    ensures AddDays(d, n).year <= 9999
  {
    var r := AddDays(d, n);
    YearLength(d.year);
    DaysBeforeYearGrows(d.year + 1, 9999);
    YearLength(9999);
    assert Ordinal(r) <= DaysBeforeYear(10000);
    if r.year >= 10000 {
      DaysBeforeYearGrows(10000, r.year);
    }
  }

  lemma ModShift(a: int, n: int)
    ensures (a + n) % 7 == (a % 7 + n) % 7
  {
  }

  /** Moving by whole days moves the weekday by as many steps, modulo 7. */
  lemma WeekdayAfter(d: Date, n: int)
    requires Valid(d) && Ordinal(d) + n >= 1
    ensures Weekday(AddDays(d, n)) == (Weekday(d) + n) % 7
  {
    var a := Ordinal(d) + 6;
    assert Weekday(AddDays(d, n)) == (a + n) % 7;
    ModShift(a, n);
  }

  /** Days moved inside one month only change the day of the month. */
  lemma {:induction false} AddDaysWithinMonth(d: Date, n: int)
    requires Valid(d) && 1 <= d.day + n <= DaysInMonth(d.year, d.month)
    ensures Ordinal(d) + n >= 1
    ensures AddDays(d, n) == Date(d.year, d.month, d.day + n)
    decreases if n >= 0 then n else -n
  {
    var target := Date(d.year, d.month, d.day + n);
    assert Ordinal(target) == Ordinal(d) + n;
    OrdinalPositive(target);
    if n == 0 {
      assert AddDays(d, n) == d == target;
    } else if n > 0 {
      var next := Date(d.year, d.month, d.day + 1);
      assert NextDay(d) == next;
      AddDaysWithinMonth(next, n - 1);
      assert AddDays(d, n) == AddDays(next, n - 1) == target;
    } else if n < 0 {
      var prev := Date(d.year, d.month, d.day - 1);
      assert PrevDay(d) == prev;
      AddDaysWithinMonth(prev, n + 1);
      assert AddDays(d, n) == AddDays(prev, n + 1) == target;
    }
  }

  /** The month after `(y, m)`, rolling December over to January of the next year. */
  function MonthAfter(y: int, m: int): (r: (int, int))
    requires 1 <= m <= 12
    ensures 1 <= r.1 <= 12
    ensures m < 12 ==> r == (y, m + 1)
    ensures m == 12 ==> r == (y + 1, 1)
  {
    if m == 12 then (y + 1, 1) else (y, m + 1)
  }

  /** `d.strftime("%Y-%m-%d")`, with the year padded to four digits. */
  function IsoDate(d: Date): (s: string)
    requires Valid(d)
  {
    ZeroPad(d.year, 4) + "-" + ZeroPad(d.month, 2) + "-" + ZeroPad(d.day, 2)
  }

  /** `datetime.strptime(s, "%Y-%m-%d")` for the canonical form `YYYY-MM-DD`; `None` where
      it would raise. */
  function ParseIso(s: string): (r: Option<Date>)
    ensures r.Some? ==> Valid(r.value) && r.value.year <= 9999
  {
    if |s| == 10 && s[4] == '-' && s[7] == '-'
       && AllDigits(s[..4]) && AllDigits(s[5..7]) && AllDigits(s[8..]) then
      var d := Date(ParseDigits(s[..4]), ParseDigits(s[5..7]), ParseDigits(s[8..]));
      ParseDigitsBound(s[..4]);
      assert Pow10(4) == 10000;
      if Valid(d) then Some(d) else None
    else None
  }

  /** Reading back a formatted date gives the date: `strptime(strftime(d))` is `d`. */
  lemma IsoRoundTrip(d: Date)
    requires Valid(d) && d.year <= 9999
    ensures ParseIso(IsoDate(d)) == Some(d)
  {
    assert Pow10(4) == 10000 && Pow10(2) == 100;
    ZeroPadRoundTrip(d.year, 4);
    ZeroPadRoundTrip(d.month, 2);
    ZeroPadRoundTrip(d.day, 2);
    var s := IsoDate(d);
    assert s[..4] == ZeroPad(d.year, 4);
    assert s[5..7] == ZeroPad(d.month, 2);
    assert s[8..] == ZeroPad(d.day, 2);
  }

  /** 14 October 2026 is a Wednesday, as `datetime.date(2026, 10, 14).weekday() == 2`. */
  lemma WeekdayExample()
    ensures Valid(Date(2026, 10, 14)) && Ordinal(Date(2026, 10, 14)) == 739903
    ensures Weekday(Date(2026, 10, 14)) == 2
  {
    DaysBeforeYearClosed(2026);
  }
}
