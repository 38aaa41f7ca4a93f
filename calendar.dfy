/** The proleptic Gregorian calendar as Python's `datetime.date` implements it:
    dates from 0001-01-01 to 9999-12-31, leap years, the successor of a day
    (`date + timedelta(days=1)`), the ordering of dates and the day ordinal
    (`date.toordinal()`). */
module Calendar {
  import opened Wrappers

  /** `datetime.MINYEAR` and `datetime.MAXYEAR`. */
  const MinYear: int := 1
  const MaxYear: int := 9999

  datatype Date = Date(year: int, month: int, day: int)

  /** `<` on dates is a strict total order. */
  lemma BeforeStrictTotal(a: Date, b: Date, c: Date)
    ensures !Before(a, a)
    ensures Before(a, b) ==> !Before(b, a)
    ensures Before(a, b) && Before(b, c) ==> Before(a, c)
    ensures Before(a, b) || a == b || Before(b, a)
  {
  }

  /** The last representable date; one day after it is an `OverflowError`. */
  const LastDate: Date := Date(MaxYear, 12, 31)

  predicate IsLeapYear(y: int) {
    y % 4 == 0 && (y % 100 != 0 || y % 400 == 0)
  }

  /** The Gregorian rule: every fourth year, except centuries not divisible
      by 400. */
  lemma LeapYearRule(y: int)
    ensures y % 4 != 0 ==> !IsLeapYear(y)
    ensures y % 4 == 0 && y % 100 != 0 ==> IsLeapYear(y)
    ensures y % 100 == 0 && y % 400 != 0 ==> !IsLeapYear(y)
    ensures y % 400 == 0 ==> IsLeapYear(y)
    ensures IsLeapYear(2024) && !IsLeapYear(2023) && IsLeapYear(2000) && !IsLeapYear(1900)
  {
  }

  function YearLength(y: int): int {
    if IsLeapYear(y) then 366 else 365
  }

  function DaysInMonth(y: int, m: int): (n: int)
    requires 1 <= m <= 12
    ensures 28 <= n <= 31
    ensures m == 2 ==> (n == 29 <==> IsLeapYear(y)) && n <= 29
    ensures m != 2 ==> n >= 30
  {
    if m == 2 then (if IsLeapYear(y) then 29 else 28)
    else if m == 4 || m == 6 || m == 9 || m == 11 then 30
    else 31
  }

  /** The dates `datetime.date(year, month, day)` accepts without a `ValueError`. */
  predicate IsValid(d: Date) {
    MinYear <= d.year <= MaxYear && 1 <= d.month <= 12 && 1 <= d.day <= DaysInMonth(d.year, d.month)
  }

  /** What validity means for a day of the month: never past the 31st, every
      day up to the 28th exists, and 29 February exactly in leap years. */
  lemma ValidDays(d: Date)
    ensures IsValid(d) ==> MinYear <= d.year <= MaxYear && 1 <= d.month <= 12 && 1 <= d.day <= 31
    ensures d.month == 2 && d.day == 29 ==> (IsValid(d) <==> MinYear <= d.year <= MaxYear && IsLeapYear(d.year))
    ensures MinYear <= d.year <= MaxYear && 1 <= d.month <= 12 && 1 <= d.day <= 28 ==> IsValid(d)
  {
  }

  /** `a < b` on dates: lexicographic on (year, month, day). */
  predicate Before(a: Date, b: Date) {
    a.year < b.year
    || (a.year == b.year && (a.month < b.month || (a.month == b.month && a.day < b.day)))
  }

  /** The day after `d`, or `None` where Python raises `OverflowError`. */
  function Next(d: Date): (r: Option<Date>)
    requires IsValid(d)
    ensures r.None? <==> d == LastDate
    ensures r.Some? ==> IsValid(r.value) && Before(d, r.value)
  {
    if d.day < DaysInMonth(d.year, d.month) then Some(Date(d.year, d.month, d.day + 1))
    else if d.month < 12 then Some(Date(d.year, d.month + 1, 1))
    else if d.year < MaxYear then Some(Date(d.year + 1, 1, 1))
    else None
  }

  /** Days in the years before `y` (`_days_before_year`), year by year. */
  function DaysBeforeYear(y: int): (n: int)
    requires y >= MinYear
    ensures n >= 365 * (y - MinYear)
    decreases y
  {
    if y == MinYear then 0 else DaysBeforeYear(y - 1) + YearLength(y - 1)
  }

  /** Days in the months of year `y` before month `m` (`_days_before_month`). */
  const CumulativeDays: seq<int> := [0, 31, 59, 90, 120, 151, 181, 212, 243, 273, 304, 334]

  function DaysBeforeMonth(y: int, m: int): int
    requires 1 <= m <= 12
  {
    CumulativeDays[m - 1] + (if m > 2 && IsLeapYear(y) then 1 else 0)
  }

  /** `date.toordinal()`: 0001-01-01 is day 1. */
  function Ordinal(d: Date): (n: int)
    requires d.year >= MinYear && 1 <= d.month <= 12
    ensures d.day >= 1 ==> n >= 1
    ensures d == Date(MinYear, 1, 1) ==> n == 1
  {
    DaysBeforeYear(d.year) + DaysBeforeMonth(d.year, d.month) + d.day
  }

  /** The month table agrees with the month lengths: each month starts where
      the previous one ends, and December ends where the year does. */
  lemma MonthTableConsistent(y: int, m: int)
    requires 1 <= m <= 12
    ensures m < 12 ==> DaysBeforeMonth(y, m + 1) == DaysBeforeMonth(y, m) + DaysInMonth(y, m)
    ensures m == 12 ==> DaysBeforeMonth(y, m) + DaysInMonth(y, m) == YearLength(y)
  {
  }

  /** Python's closed form for the days before a year agrees with counting
      the years one by one. */
  lemma {:induction false} DaysBeforeYearClosedForm(y: int)
    requires y >= MinYear
    ensures DaysBeforeYear(y) == 365 * (y - 1) + (y - 1) / 4 - (y - 1) / 100 + (y - 1) / 400
    decreases y
  {
    if y > MinYear {
      DaysBeforeYearClosedForm(y - 1);
      LeapDays(y - 1);
    }
  }

  /** Year `x` has a leap day exactly when `x` is the multiple of 4 that the
      closed form counts and not a multiple of 100 it takes away, unless it is
      a multiple of 400 it adds back. */
  lemma LeapDays(x: int)
    requires x >= 1
    ensures YearLength(x) == 365 + (x / 4 - (x - 1) / 4) - (x / 100 - (x - 1) / 100) + (x / 400 - (x - 1) / 400)
  {
    QuotientSteps(x - 1);
    if x % 400 == 0 {
      assert x % 100 == 0 && x % 4 == 0;
    } else if x % 100 == 0 {
      assert x % 4 == 0;
    }
  }

  /** Going from `p` to `p + 1` raises each quotient exactly when `p + 1` is
      a multiple of the divisor. */
  lemma QuotientSteps(p: int)
    requires p >= 0
    ensures (p + 1) / 4 == p / 4 + (if (p + 1) % 4 == 0 then 1 else 0)
    ensures (p + 1) / 100 == p / 100 + (if (p + 1) % 100 == 0 then 1 else 0)
    ensures (p + 1) / 400 == p / 400 + (if (p + 1) % 400 == 0 then 1 else 0)
  {
  }

  /** Valid dates have the ordinals 1 (0001-01-01) to 3652059 (9999-12-31). */
  lemma OrdinalRange(d: Date)
    requires IsValid(d)
    ensures 1 <= Ordinal(d) <= Ordinal(LastDate) == 3652059
  {
    DaysBeforeYearClosedForm(MaxYear);
    WithinYear(d);
    if d.year < MaxYear {
      DaysBeforeYearIncreasing(d.year, MaxYear);
    }
  }

  /** The successor of a day has the next ordinal. */
  lemma NextOrdinal(d: Date)
    requires IsValid(d) && d != LastDate
    ensures Ordinal(Next(d).value) == Ordinal(d) + 1
  {
    MonthTableConsistent(d.year, d.month);
  }

  lemma {:induction false} DaysBeforeYearIncreasing(a: int, b: int)
    requires MinYear <= a < b
    ensures DaysBeforeYear(a) + YearLength(a) <= DaysBeforeYear(b)
    decreases b - a
  {
    if a + 1 < b {
      DaysBeforeYearIncreasing(a + 1, b);
    }
  }

  lemma {:induction false} DaysBeforeMonthIncreasing(y: int, a: int, b: int)
    requires 1 <= a < b <= 12
    ensures DaysBeforeMonth(y, a) + DaysInMonth(y, a) <= DaysBeforeMonth(y, b)
    decreases b - a
  {
    MonthTableConsistent(y, a);
    if a + 1 < b {
      DaysBeforeMonthIncreasing(y, a + 1, b);
      MonthTableConsistent(y, a + 1);
    }
  }

  /** A valid date ends no later than its year does. */
  lemma WithinYear(d: Date)
    requires IsValid(d)
    ensures DaysBeforeMonth(d.year, d.month) + d.day <= YearLength(d.year)
  {
    MonthTableConsistent(d.year, 12);
    if d.month < 12 {
      DaysBeforeMonthIncreasing(d.year, d.month, 12);
    }
  }

  /** The ordinal orders valid dates exactly as Python compares them. */
  lemma OrdinalOrder(a: Date, b: Date)
    requires IsValid(a) && IsValid(b)
    ensures Before(a, b) <==> Ordinal(a) < Ordinal(b)
    ensures a == b <==> Ordinal(a) == Ordinal(b)
  {
    if Before(a, b) {
      BeforeOrdinal(a, b);
    } else if Before(b, a) {
      BeforeOrdinal(b, a);
    }
  }

  lemma BeforeOrdinal(a: Date, b: Date)
    requires IsValid(a) && IsValid(b) && Before(a, b)
    ensures Ordinal(a) < Ordinal(b)
  {
    if a.year < b.year {
      WithinYear(a);
      DaysBeforeYearIncreasing(a.year, b.year);
    } else if a.month < b.month {
      DaysBeforeMonthIncreasing(a.year, a.month, b.month);
    }
  }

  /** No valid date comes after the last one. */
  lemma AtMostLastDate(d: Date)
    requires IsValid(d)
    ensures !Before(LastDate, d)
  {
  }

  /** The successor is the immediate successor: no valid date lies strictly
      between a day and the next one. */
  lemma NextIsImmediate(d: Date, e: Date)
    requires IsValid(d) && d != LastDate && IsValid(e)
    ensures Before(d, e) <==> (e == Next(d).value || Before(Next(d).value, e))
  {
    NextOrdinal(d);
    OrdinalOrder(d, e);
    OrdinalOrder(Next(d).value, e);
  }
}
