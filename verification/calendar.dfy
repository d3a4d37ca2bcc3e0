/** The proleptic Gregorian calendar as JavaScript's `Date` sees it, with
    time values in milliseconds since 1970-01-01T00:00:00Z and the server's
    local time zone taken to be UTC.

    `MakeDay` is the constructor `new Date(y, m, d)`: the month is zero-based
    and both the month and the day may overflow, rolling into the following
    months and years exactly as ECMAScript's MakeDay does. `FullYear`, `Month`
    and `Date` are `getFullYear()`, `getMonth()` and `getDate()`. */
module Calendar {

  const MsPerDay: nat := 86400000

  predicate IsLeapYear(y: int) {
    y % 4 == 0 && (y % 100 != 0 || y % 400 == 0)
  }

  function DaysInYear(y: int): nat {
    if IsLeapYear(y) then 366 else 365
  }

  /** Day number of January 1st of year `y` (day 0 is 1970-01-01). */
  function DayFromYear(y: int): int
    decreases if y < 1970 then 1970 - y else y - 1970
  {
    if y == 1970 then 0
    else if y > 1970 then DayFromYear(y - 1) + DaysInYear(y - 1)
    else DayFromYear(y + 1) - DaysInYear(y)
  }

  /** Number of days of month `m` (0 = January) in year `y`. */
  function DaysInMonth(y: int, m: int): nat
    requires 0 <= m < 12
  {
    if m == 1 then (if IsLeapYear(y) then 29 else 28)
    else if m == 3 || m == 5 || m == 8 || m == 10 then 30
    else 31
  }

  const CumulativeDays: seq<nat> := [0, 31, 59, 90, 120, 151, 181, 212, 243, 273, 304, 334, 365]

  /** Days of year `y` that precede the first day of month `m`; `m == 12`
      gives the length of the year. */
  function DaysBeforeMonth(y: int, m: int): nat
    requires 0 <= m <= 12
  {
    CumulativeDays[m] + (if m >= 2 && IsLeapYear(y) then 1 else 0)
  }

  /** ECMAScript MakeDay: the day number of `new Date(y, m, date)`. */
  function MakeDay(y: int, m: int, date: int): int {
    var ym := y + m / 12;
    var mn := m % 12;
    DayFromYear(ym) + DaysBeforeMonth(ym, mn) + date - 1
  }

  /** The time value of `new Date(y, m, date)`, local midnight of that day. */
  function MakeDate(y: int, m: int, date: int): int {
    MakeDay(y, m, date) * MsPerDay
  }

  /** The year containing day `d`, found by walking forward from year `y`. */
  function YearFrom(y: int, d: nat): (r: int)
    requires 1970 <= y && DayFromYear(y) <= d
    ensures y <= r && DayFromYear(r) <= d < DayFromYear(r + 1)
    decreases d - DayFromYear(y)
  {
    if d < DayFromYear(y + 1) then y else YearFrom(y + 1, d)
  }

  function YearOfDay(d: nat): (y: int)
    ensures 1970 <= y && DayFromYear(y) <= d < DayFromYear(y + 1)
  {
    YearFrom(1970, d)
  }

  /** The month of year `y` containing day-of-year `k`, found by walking forward from month `m`. */
  function MonthFrom(y: int, k: int, m: nat): (r: nat)
    requires m < 12 && DaysBeforeMonth(y, m) <= k < DaysInYear(y)
    ensures m <= r < 12 && DaysBeforeMonth(y, r) <= k < DaysBeforeMonth(y, r + 1)
    decreases 12 - m
  {
    if k < DaysBeforeMonth(y, m + 1) then m else MonthFrom(y, k, m + 1)
  }

  function MonthOfDay(d: nat): (m: nat)
    ensures m < 12
    ensures DaysBeforeMonth(YearOfDay(d), m) <= d - DayFromYear(YearOfDay(d)) < DaysBeforeMonth(YearOfDay(d), m + 1)
  {
    var y := YearOfDay(d);
    DayFromYearStep(y);
    MonthFrom(y, d - DayFromYear(y), 0)
  }

  function DateOfDay(d: nat): (date: int)
    ensures 1 <= date <= DaysInMonth(YearOfDay(d), MonthOfDay(d))
  {
    var y := YearOfDay(d);
    var m := MonthOfDay(d);
    MonthLength(y, m);
    d - DayFromYear(y) - DaysBeforeMonth(y, m) + 1
  }

  /** `getFullYear()`, `getMonth()`, `getDate()` of a time value. */
  function FullYear(t: nat): int { YearOfDay(t / MsPerDay) }
  function Month(t: nat): nat { MonthOfDay(t / MsPerDay) }
  function Date(t: nat): int { DateOfDay(t / MsPerDay) }

  // ---------------------------------------------------------------------
  // Facts about the calendar

  lemma DayFromYearStep(y: int)
    ensures DayFromYear(y + 1) == DayFromYear(y) + DaysInYear(y)
  {
  }

  /** Later years start strictly later. */
  lemma {:induction false} DayFromYearMonotone(a: int, b: int)
    requires a < b
    ensures DayFromYear(a) + DaysInYear(a) <= DayFromYear(b)
    decreases b - a
  {
    DayFromYearStep(a);
    if a + 1 < b {
      DayFromYearMonotone(a + 1, b);
    }
  }

  lemma MonthLength(y: int, m: int)
    requires 0 <= m < 12
    ensures DaysBeforeMonth(y, m + 1) == DaysBeforeMonth(y, m) + DaysInMonth(y, m)
    ensures DaysBeforeMonth(y, 12) == DaysInYear(y)
  {
  }

  lemma DaysBeforeMonthMonotone(y: int, a: int, b: int)
    requires 0 <= a < b <= 12
    ensures DaysBeforeMonth(y, a) < DaysBeforeMonth(y, b)
  {
  }

  /** A day lies in exactly one year: `YearOfDay` finds it. */
  lemma YearOfDayUnique(d: nat, y: int)
    requires DayFromYear(y) <= d < DayFromYear(y + 1)
    ensures YearOfDay(d) == y
  {
    var r := YearOfDay(d);
    if r < y {
      DayFromYearMonotone(r, y);
      DayFromYearStep(r);
    } else if y < r {
      DayFromYearMonotone(y, r);
      DayFromYearStep(y);
    }
  }

  /** Decoding the day number of a valid calendar date gives that date back. */
  lemma CivilOfMakeDay(y: int, m: int, date: int)
    requires 1970 <= y && 0 <= m < 12 && 1 <= date <= DaysInMonth(y, m)
    ensures MakeDay(y, m, date) >= 0
    ensures YearOfDay(MakeDay(y, m, date)) == y
    ensures MonthOfDay(MakeDay(y, m, date)) == m
    ensures DateOfDay(MakeDay(y, m, date)) == date
  {
    var d := MakeDay(y, m, date);
    MonthLength(y, m);
    DayFromYearStep(y);
    assert DayFromYear(1970) == 0;
    if y > 1970 {
      DayFromYearMonotone(1970, y);
    }
    assert DaysBeforeMonth(y, m + 1) <= DaysInYear(y) by {
      if m + 1 < 12 { DaysBeforeMonthMonotone(y, m + 1, 12); }
    }
    YearOfDayUnique(d, y);
    var r := MonthOfDay(d);
    if r < m {
      DaysBeforeMonthMonotone(y, r + 1, m + 1);
      if r + 1 < m { DaysBeforeMonthMonotone(y, r + 1, m); }
    } else if m < r {
      DaysBeforeMonthMonotone(y, m + 1, r + 1);
      if m + 1 < r { DaysBeforeMonthMonotone(y, m + 1, r); }
    }
  }

  /** Encoding the decoded date of a day gives that day back. */
  lemma MakeDayOfCivil(d: nat)
    ensures MakeDay(YearOfDay(d), MonthOfDay(d), DateOfDay(d)) == d
  {
    var y, m := YearOfDay(d), MonthOfDay(d);
    assert y + m / 12 == y && m % 12 == m;
  }

  /** A day past the end of its month rolls into the next month (with the
      year rolling over after December), as `new Date` does. */
  lemma MakeDayOverflow(y: int, m: int, date: int)
    requires 0 <= m < 12
    ensures MakeDay(y, m, date) == MakeDay(y, m + 1, date - DaysInMonth(y, m))
  {
    MonthLength(y, m);
    if m == 11 {
      DayFromYearStep(y);
    }
  }

  /** The first day of the month after the one containing day `d` comes after `d`. */
  lemma NextMonthStartsLater(d: nat)
    ensures MakeDay(YearOfDay(d), MonthOfDay(d) + 1, 1) > d
  {
    var y, m := YearOfDay(d), MonthOfDay(d);
    MonthLength(y, 0);
    if m == 11 {
      DayFromYearStep(y);
    }
  }

  /** `new Date(y, m, date)` only depends on the month through the year it
      falls in and its position in that year. */
  lemma MakeDayNormal(y: int, m: int, date: int)
    requires 0 <= m
    ensures MakeDay(y, m, date) == MakeDay(y + m / 12, m % 12, date)
  {
    assert (m % 12) / 12 == 0 && (m % 12) % 12 == m % 12;
  }

  /** The day a time value falls on. */
  lemma DayOfTime(day: nat, ms: int)
    requires 0 <= ms < MsPerDay
    ensures (day * MsPerDay + ms) / MsPerDay == day
  {
  }

  /** Midnight of a day no later than the day of `t` is no later than `t`. */
  lemma MidnightNotAfter(day: int, t: nat)
    requires day <= t / MsPerDay
    ensures day * MsPerDay <= t
  {
    assert (t / MsPerDay) * MsPerDay <= t;
  }

  /** Midnight of a day is a whole number of days. */
  lemma WholeDays(day: int)
    ensures (day * MsPerDay) % MsPerDay == 0
  {
  }

  /** Any instant of the day `new Date(y, m, date)` reads back as that date. */
  lemma CivilOfMakeDate(y: int, m: int, date: int, ms: int)
    requires 1970 <= y && 0 <= m < 12 && 1 <= date <= DaysInMonth(y, m) && 0 <= ms < MsPerDay
    ensures MakeDate(y, m, date) + ms >= 0
    ensures FullYear(MakeDate(y, m, date) + ms) == y
    ensures Month(MakeDate(y, m, date) + ms) == m
    ensures Date(MakeDate(y, m, date) + ms) == date
  {
    CivilOfMakeDay(y, m, date);
    DayOfTime(MakeDay(y, m, date), ms);
  }

  /** Midnight of a valid calendar date reads back as that date. */
  lemma CivilOfMidnight(y: int, m: int, date: int)
    requires 1970 <= y && 0 <= m < 12 && 1 <= date <= DaysInMonth(y, m)
    ensures MakeDate(y, m, date) >= 0
    ensures FullYear(MakeDate(y, m, date)) == y
    ensures Month(MakeDate(y, m, date)) == m
    ensures Date(MakeDate(y, m, date)) == date
  {
    CivilOfMakeDay(y, m, date);
    DayOfTime(MakeDay(y, m, date), 0);
  }

  /** A date one to three days past the end of its month reads back as that
      many days into the following month. */
  lemma CivilOfOverflow(y: int, m: int, date: int)
    requires 1970 <= y && 0 <= m < 12 && DaysInMonth(y, m) < date <= 31
    ensures MakeDate(y, m, date) >= 0
    ensures FullYear(MakeDate(y, m, date)) == y + (m + 1) / 12
    ensures Month(MakeDate(y, m, date)) == (m + 1) % 12
    ensures Date(MakeDate(y, m, date)) == date - DaysInMonth(y, m)
  {
    var y2, m2, date2 := y + (m + 1) / 12, (m + 1) % 12, date - DaysInMonth(y, m);
    assert 1 <= date2 <= DaysInMonth(y2, m2);
    MakeDayOverflow(y, m, date);
    MakeDayNormal(y, m + 1, date2);
    assert MakeDate(y, m, date) == MakeDate(y2, m2, date2);
    CivilOfMidnight(y2, m2, date2);
  }
}
