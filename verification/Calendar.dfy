/** The proleptic Gregorian calendar that `chrono::NaiveDate` and JavaScript dates share. */
module Calendar {
  import opened Prelude

  datatype Date = Date(year: int, month: int, day: int)

  predicate IsLeap(year: int) {
    year % 4 == 0 && (year % 100 != 0 || year % 400 == 0)
  }

  function DaysInMonth(year: int, month: int): int {
    if month == 2 then (if IsLeap(year) then 29 else 28)
    else if month == 4 || month == 6 || month == 9 || month == 11 then 30
    else 31
  }

  predicate Valid(d: Date) {
    1 <= d.month <= 12 && 1 <= d.day <= DaysInMonth(d.year, d.month)
  }

  type ValidDate = d: Date | Valid(d) witness Date(2000, 1, 1)

  function DaysBeforeYear(year: int): int {
    365 * (year - 1) + (year - 1) / 4 - (year - 1) / 100 + (year - 1) / 400
  }

  function DaysBeforeMonth(year: int, month: int): int
    requires 1 <= month <= 13
  {
    if month == 1 then 0 else DaysBeforeMonth(year, month - 1) + DaysInMonth(year, month - 1)
  }

  /** Days since the last day of the year 0. */
  function DayNumber(d: Date): int
    requires Valid(d)
  {
    DaysBeforeYear(d.year) + DaysBeforeMonth(d.year, d.month) + d.day
  }

  /** Lexicographic order of `YYYY-MM-DD` strings. */
  predicate Before(a: Date, b: Date) {
    a.year < b.year || (a.year == b.year && (a.month < b.month || (a.month == b.month && a.day < b.day)))
  }

  /** The lengths of the months, January first. */
  lemma {:induction false} LengthsOfMonths(year: int, month: int)
    requires 1 <= month <= 12
    ensures var leap := year % 400 == 0 || (year % 4 == 0 && year % 100 != 0);
            DaysInMonth(year, month) == [31, if leap then 29 else 28, 31, 30, 31, 30, 31, 31, 30, 31, 30, 31][month - 1]
  {
  }

  lemma {:induction false} YearLength(year: int)
    ensures DaysBeforeYear(year + 1) == DaysBeforeYear(year) + 365 + (if IsLeap(year) then 1 else 0)
    ensures DaysBeforeMonth(year, 13) == 365 + (if IsLeap(year) then 1 else 0)
  {
    YearStep(year, 4);
    YearStep(year, 100);
    YearStep(year, 400);
    MonthStarts(year);
  }

  lemma {:induction false} YearStep(year: int, period: int)
    requires period > 0
    ensures year / period == (year - 1) / period + (if year % period == 0 then 1 else 0)
  {
    var q, r := (year - 1) / period, (year - 1) % period;
    assert year - 1 == q * period + r;
    if r == period - 1 {
      assert year == (q + 1) * period;
      DivisionIsUnique(year, period, q + 1, 0);
    } else {
      DivisionIsUnique(year, period, q, r + 1);
    }
  }

  lemma {:induction false} DivisionIsUnique(n: int, period: int, q: int, r: int)
    requires period > 0 && 0 <= r < period && n == q * period + r
    ensures n / period == q && n % period == r
  {
    var d := n / period - q;
    MultipleIsFar(d, period);
    assert d * period == r - n % period;
  }

  lemma {:induction false} MultipleIsFar(d: int, period: int)
    requires period > 0
    ensures d == 0 || d * period >= period || d * period <= -period
  {
  }

  lemma {:induction false} MonthStarts(year: int)
    ensures DaysBeforeMonth(year, 5) == 120 + (if IsLeap(year) then 1 else 0)
    ensures DaysBeforeMonth(year, 9) == 243 + (if IsLeap(year) then 1 else 0)
    ensures DaysBeforeMonth(year, 13) == 365 + (if IsLeap(year) then 1 else 0)
  {
    assert DaysBeforeMonth(year, 1) == 0;
    assert DaysBeforeMonth(year, 2) == 31;
    assert DaysBeforeMonth(year, 3) == 59 + (if IsLeap(year) then 1 else 0);
    assert DaysBeforeMonth(year, 5) == DaysBeforeMonth(year, 3) + 61;
    assert DaysBeforeMonth(year, 7) == DaysBeforeMonth(year, 5) + 61;
    assert DaysBeforeMonth(year, 9) == DaysBeforeMonth(year, 7) + 62;
    assert DaysBeforeMonth(year, 11) == DaysBeforeMonth(year, 9) + 61;
    assert DaysBeforeMonth(year, 13) == DaysBeforeMonth(year, 11) + 61;
  }

  lemma {:induction false} MonthsMonotone(year: int, m: int, n: int)
    requires 1 <= m <= n <= 13
    ensures 0 <= DaysBeforeMonth(year, m) <= DaysBeforeMonth(year, n)
    decreases n
  {
    if m < n {
      MonthsMonotone(year, m, n - 1);
    } else if m > 1 {
      MonthsMonotone(year, m - 1, n - 1);
    }
  }

  lemma {:induction false} YearsMonotone(a: int, b: int)
    requires a <= b
    ensures DaysBeforeYear(a) <= DaysBeforeYear(b)
    decreases b - a
  {
  }

  /** Date strings sort exactly as the days they name; in particular no two valid dates share a day number. */
  lemma {:induction false} OrderIsDayOrder(a: Date, b: Date)
    requires Valid(a) && Valid(b)
    ensures Before(a, b) <==> DayNumber(a) < DayNumber(b)
    ensures a == b <==> DayNumber(a) == DayNumber(b)
  {
    if Before(a, b) {
      EarlierDay(a, b);
    } else if Before(b, a) {
      EarlierDay(b, a);
    }
  }

  lemma {:induction false} EarlierDay(a: Date, b: Date)
    requires Valid(a) && Valid(b) && Before(a, b)
    ensures DayNumber(a) < DayNumber(b)
  {
    MonthsMonotone(a.year, a.month + 1, 13);
    MonthsMonotone(b.year, 1, b.month);
    if a.year < b.year {
      YearLength(a.year);
      YearsMonotone(a.year + 1, b.year);
    } else if a.month < b.month {
      MonthsMonotone(a.year, a.month + 1, b.month);
    }
  }

  // ----- moving by days

  function NextDay(d: Date): (r: Date)
    requires Valid(d)
    ensures Valid(r)
  {
    if d.day < DaysInMonth(d.year, d.month) then Date(d.year, d.month, d.day + 1)
    else if d.month < 12 then Date(d.year, d.month + 1, 1)
    else Date(d.year + 1, 1, 1)
  }

  function PreviousDay(d: Date): (r: Date)
    requires Valid(d)
    ensures Valid(r)
  {
    if d.day > 1 then Date(d.year, d.month, d.day - 1)
    else if d.month > 1 then Date(d.year, d.month - 1, DaysInMonth(d.year, d.month - 1))
    else Date(d.year - 1, 12, 31)
  }

  lemma {:induction false} NextDayNumber(d: Date)
    requires Valid(d)
    ensures DayNumber(NextDay(d)) == DayNumber(d) + 1
  {
    if d.month == 12 {
      YearLength(d.year);
    }
  }

  lemma {:induction false} PreviousDayNumber(d: Date)
    requires Valid(d)
    ensures DayNumber(PreviousDay(d)) == DayNumber(d) - 1
  {
    if d.month == 1 {
      YearLength(d.year - 1);
      assert DaysBeforeMonth(d.year - 1, 13) == DaysBeforeMonth(d.year - 1, 12) + 31;
    }
  }

  /** `addDays`: forward or backward. */
  function AddDays(d: Date, n: int): (r: Date)
    requires Valid(d)
    ensures Valid(r)
    decreases if n < 0 then -n else n
  {
    if n == 0 then d
    else if n > 0 then AddDays(NextDay(d), n - 1)
    else AddDays(PreviousDay(d), n + 1)
  }

  /** Adding days moves the day number by exactly that many, so the result is the only date it can be. */
  lemma {:induction false} AddDaysNumber(d: Date, n: int)
    requires Valid(d)
    ensures DayNumber(AddDays(d, n)) == DayNumber(d) + n
    decreases if n < 0 then -n else n
  {
    if n > 0 {
      NextDayNumber(d);
      AddDaysNumber(NextDay(d), n - 1);
    } else if n < 0 {
      PreviousDayNumber(d);
      AddDaysNumber(PreviousDay(d), n + 1);
    }
  }

  // ----- moving by months

  /** Months since year 0. */
  function MonthIndex(d: Date): int {
    12 * d.year + d.month - 1
  }

  function MonthLength(index: int): (n: int)
    ensures 28 <= n <= 31
  {
    DaysInMonth(index / 12, index % 12 + 1)
  }

  /** `addMonthsClamped`: first of the month, move the month, then the old day or the last one there is. */
  function AddMonthsClamped(d: Date, months: int): (r: Date)
    requires Valid(d)
    ensures Valid(r)
  {
    var index := MonthIndex(d) + months;
    Date(index / 12, index % 12 + 1, Min(d.day, MonthLength(index)))
  }

  lemma {:induction false} MonthIndexOf(index: int, day: int)
    ensures MonthIndex(Date(index / 12, index % 12 + 1, day)) == index
  {
  }

  lemma {:induction false} OwnMonth(d: Date)
    requires Valid(d)
    ensures MonthIndex(d) / 12 == d.year && MonthIndex(d) % 12 + 1 == d.month
    ensures MonthLength(MonthIndex(d)) == DaysInMonth(d.year, d.month)
  {
  }

  /** The last day before the first of the following month is the last day of the month. */
  lemma {:induction false} LastDayOfMonth(year: int, month: int)
    requires 1 <= month <= 12
    ensures PreviousDay(if month == 12 then Date(year + 1, 1, 1) else Date(year, month + 1, 1))
         == Date(year, month, DaysInMonth(year, month))
  {
  }

  /** A clamped monthly step lands in the next month, 28 to 31 days later. */
  lemma {:induction false} MonthStep(d: Date)
    requires Valid(d)
    ensures MonthIndex(AddMonthsClamped(d, 1)) == MonthIndex(d) + 1
    ensures DayNumber(d) + 28 <= DayNumber(AddMonthsClamped(d, 1)) <= DayNumber(d) + 31
  {
    var index := MonthIndex(d) + 1;
    OwnMonth(d);
    MonthIndexOf(index, Min(d.day, MonthLength(index)));
    if d.month < 12 {
      DivisionIsUnique(index, 12, d.year, d.month);
      assert DaysBeforeMonth(d.year, d.month + 1) == DaysBeforeMonth(d.year, d.month) + DaysInMonth(d.year, d.month);
    } else {
      DivisionIsUnique(index, 12, d.year + 1, 0);
      YearLength(d.year);
      assert DaysBeforeMonth(d.year, 13) == DaysBeforeMonth(d.year, 12) + 31;
    }
  }
}
