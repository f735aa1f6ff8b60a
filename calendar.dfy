/** The proleptic Gregorian calendar that JavaScript's `Date` uses, reduced to what the
    date picker needs: leap years, month lengths, day numbers, weekdays, stepping by days,
    and the normalising constructor `new Date(year, monthIndex, day)`. Times of day and time
    zones are not modelled: the picker builds every date at noon, so none of them shifts a
    date. */
module Calendar {

  /** A calendar date; `month` runs 1-12 (JavaScript's month index plus one). */
  datatype Date = Date(year: int, month: nat, day: nat)

  predicate IsLeapYear(y: int) {
    y % 4 == 0 && (y % 100 != 0 || y % 400 == 0)
  }

  function DaysInMonth(y: int, m: nat): (n: nat)
    requires 1 <= m <= 12
    ensures 28 <= n <= 31
    ensures n == 29 <==> m == 2 && IsLeapYear(y)
    ensures n == 28 <==> m == 2 && !IsLeapYear(y)
  {
    if m == 2 then (if IsLeapYear(y) then 29 else 28)
    else if m == 4 || m == 6 || m == 9 || m == 11 then 30
    else 31
  }

  predicate Valid(d: Date) {
    1 <= d.month <= 12 && 1 <= d.day <= DaysInMonth(d.year, d.month)
  }

  function YearLength(y: int): nat {
    if IsLeapYear(y) then 366 else 365
  }

  /** The number of days from 1 January of year 0 to 1 January of `y` (negative before
      year 0): 365 per year plus one per leap year in between. */
  function DaysBeforeYear(y: int): int {
    365 * y + (y + 3) / 4 - (y + 99) / 100 + (y + 399) / 400
  }

  lemma DaysBeforeYearStep(y: int)
    ensures DaysBeforeYear(y + 1) == DaysBeforeYear(y) + YearLength(y)
  {
    assert (y + 4) / 4 - (y + 3) / 4 == if y % 4 == 0 then 1 else 0;
    assert (y + 100) / 100 - (y + 99) / 100 == if y % 100 == 0 then 1 else 0;
    assert (y + 400) / 400 - (y + 399) / 400 == if y % 400 == 0 then 1 else 0;
  }

  /** Days before the first of month `m` within year `y`. */
  function DaysBeforeMonth(y: int, m: nat): (n: nat)
    requires 1 <= m <= 12
  {
    [0, 31, 59, 90, 120, 151, 181, 212, 243, 273, 304, 334][m - 1] + (if m > 2 && IsLeapYear(y) then 1 else 0)
  }

  lemma DaysBeforeMonthStep(y: int, m: nat)
    requires 1 <= m <= 12
    ensures m < 12 ==> DaysBeforeMonth(y, m + 1) == DaysBeforeMonth(y, m) + DaysInMonth(y, m)
    ensures m == 12 ==> DaysBeforeMonth(y, m) + DaysInMonth(y, m) == YearLength(y)
  {
  }

  /** Days since 1 January of year 0; consecutive dates have consecutive numbers. */
  function DayNumber(d: Date): int
    requires 1 <= d.month <= 12
  {
    DaysBeforeYear(d.year) + DaysBeforeMonth(d.year, d.month) + d.day - 1
  }

  /** `getDay()`: 0 for Sunday through 6 for Saturday; 1 January of year 0 was a Saturday. */
  function Weekday(d: Date): (w: nat)
    requires 1 <= d.month <= 12
    ensures w < 7
  {
    (DayNumber(d) + 6) % 7
  }

  function NextDay(d: Date): (r: Date)
    requires Valid(d)
    ensures Valid(r)
  {
    if d.day < DaysInMonth(d.year, d.month) then d.(day := d.day + 1)
    else if d.month < 12 then Date(d.year, d.month + 1, 1)
    else Date(d.year + 1, 1, 1)
  }

  function PrevDay(d: Date): (r: Date)
    requires Valid(d)
    ensures Valid(r)
  {
    if d.day > 1 then d.(day := d.day - 1)
    else if d.month > 1 then Date(d.year, d.month - 1, DaysInMonth(d.year, d.month - 1))
    else Date(d.year - 1, 12, 31)
  }

  /** The date `k` days after `d` (before it for negative `k`): `setDate(getDate() + k)`. */
  function AddDays(d: Date, k: int): (r: Date)
    requires Valid(d)
    ensures Valid(r)
    decreases if k >= 0 then k else -k
  {
    if k == 0 then d
    else if k > 0 then AddDays(NextDay(d), k - 1)
    else AddDays(PrevDay(d), k + 1)
  }

  /** The year `new Date(year, …)` uses: 0-99 mean 1900-1999. */
  function FullYear(y: int): int {
    if 0 <= y <= 99 then 1900 + y else y
  }

  /** The first day of the month `monthIndex` months after January of `year`, the month
      index rolling over into neighbouring years in either direction. */
  function MonthStart(year: int, monthIndex: int): (r: Date)
    ensures Valid(r) && r.day == 1
    ensures r.year * 12 + r.month - 1 == year * 12 + monthIndex
  {
    var total := year * 12 + monthIndex;
    Date(total / 12, total % 12 + 1, 1)
  }

  /** A month index one step outside the year lands at most one year away. */
  lemma MonthStartNear(year: int, monthIndex: int)
    requires -1 <= monthIndex <= 12
    ensures year - 1 <= MonthStart(year, monthIndex).year <= year + 1
  {
    var total := year * 12 + monthIndex;
    if monthIndex == -1 {
      assert total == 12 * (year - 1) + 11;
    } else if monthIndex == 12 {
      assert total == 12 * (year + 1) + 0;
    } else {
      assert total == 12 * year + monthIndex;
    }
  }

  /** `new Date(year, monthIndex, day)`: the month and the day roll over in either
      direction, and a year of 0-99 means 1900-1999. */
  function MakeDate(year: int, monthIndex: int, day: int): (r: Date)
    ensures Valid(r)
  {
    AddDays(MonthStart(FullYear(year), monthIndex), day - 1)
  }

  // ---------------------------------------------------------------------------
  // Properties
  // ---------------------------------------------------------------------------

  /** Consecutive dates have consecutive day numbers. */
  lemma NextDayNumber(d: Date)
    requires Valid(d)
    ensures DayNumber(NextDay(d)) == DayNumber(d) + 1
  {
    DaysBeforeMonthStep(d.year, d.month);
    if d.day == DaysInMonth(d.year, d.month) && d.month == 12 {
      DaysBeforeYearStep(d.year);
    }
  }

  lemma PrevDayNumber(d: Date)
    requires Valid(d)
    ensures DayNumber(PrevDay(d)) == DayNumber(d) - 1
  {
    if d.day == 1 {
      if d.month > 1 {
        DaysBeforeMonthStep(d.year, d.month - 1);
      } else {
        DaysBeforeMonthStep(d.year - 1, 12);
        DaysBeforeYearStep(d.year - 1);
      }
    }
  }

  /** Adding `k` days adds `k` to the day number. */
  lemma AddDaysNumber(d: Date, k: int)
    requires Valid(d)
    ensures DayNumber(AddDays(d, k)) == DayNumber(d) + k
  {
    if k >= 0 {
      AddDaysForward(d, k);
    } else {
      AddDaysBackward(d, -k);
    }
  }

  lemma {:induction false} AddDaysForward(d: Date, k: nat)
    requires Valid(d)
    ensures DayNumber(AddDays(d, k)) == DayNumber(d) + k
    decreases k
  {
    if k > 0 {
      var e := NextDay(d);
      assert AddDays(d, k) == AddDays(e, k - 1);
      NextDayNumber(d);
      AddDaysForward(e, k - 1);
    }
  }

  lemma {:induction false} AddDaysBackward(d: Date, k: nat)
    requires Valid(d)
    ensures DayNumber(AddDays(d, -(k as int))) == DayNumber(d) - k
    decreases k
  {
    if k > 0 {
      var e := PrevDay(d);
      assert AddDays(d, -(k as int)) == AddDays(e, -(k as int) + 1);
      PrevDayNumber(d);
      AddDaysBackward(e, k - 1);
    }
  }

  /** Stepping inside a month only moves the day. */
  lemma {:induction false} AddDaysInMonth(d: Date, k: nat)
    requires Valid(d) && d.day + k <= DaysInMonth(d.year, d.month)
    ensures AddDays(d, k) == d.(day := d.day + k)
    decreases k
  {
    if k > 0 {
      var e := d.(day := d.day + 1);
      assert NextDay(d) == e;
      assert AddDays(d, k) == AddDays(e, k - 1);
      AddDaysInMonth(e, k - 1);
    }
  }

  /** `new Date(year, monthIndex, day)` for a day of that month is that day. */
  lemma MakeDateInMonth(year: int, monthIndex: int, day: int)
    requires var s := MonthStart(FullYear(year), monthIndex); 1 <= day <= DaysInMonth(s.year, s.month)
    ensures MakeDate(year, monthIndex, day) == MonthStart(FullYear(year), monthIndex).(day := day)
  {
    var s := MonthStart(FullYear(year), monthIndex);
    assert MakeDate(year, monthIndex, day) == AddDays(s, day - 1);
    AddDaysInMonth(s, day - 1);
  }

  /** The month after `MonthStart(year, monthIndex)` is `MonthStart(year, monthIndex + 1)`. */
  lemma MonthStartNext(year: int, monthIndex: int)
    ensures var s, t := MonthStart(year, monthIndex), MonthStart(year, monthIndex + 1);
      if s.month < 12 then t == Date(s.year, s.month + 1, 1) else t == Date(s.year + 1, 1, 1)
  {
    var total := year * 12 + monthIndex;
    var q, r := total / 12, total % 12;
    assert total == 12 * q + r;
    if r < 11 {
      assert total + 1 == 12 * q + (r + 1);
    } else {
      assert total + 1 == 12 * (q + 1) + 0;
    }
  }

  /** Day 0 of the next month, `new Date(year, monthIndex + 1, 0)`, is the last day of the
      month. */
  lemma MakeDateMonthEnd(year: int, monthIndex: int)
    ensures var s := MonthStart(FullYear(year), monthIndex);
      MakeDate(year, monthIndex + 1, 0) == s.(day := DaysInMonth(s.year, s.month))
  {
    var s, t := MonthStart(FullYear(year), monthIndex), MonthStart(FullYear(year), monthIndex + 1);
    MonthStartNext(FullYear(year), monthIndex);
    assert MakeDate(year, monthIndex + 1, 0) == AddDays(t, -1) == PrevDay(t);
  }

  /** Later years start later. */
  lemma {:induction false} DaysBeforeYearIncreasing(a: int, b: int)
    requires a < b
    ensures DaysBeforeYear(a) + YearLength(a) <= DaysBeforeYear(b)
    decreases b - a
  {
    DaysBeforeYearStep(a);
    if a + 1 < b {
      DaysBeforeYearIncreasing(a + 1, b);
    }
  }

  /** Calendar order: by year, then month, then day. */
  predicate Before(a: Date, b: Date) {
    a.year < b.year || (a.year == b.year && (a.month < b.month || (a.month == b.month && a.day < b.day)))
  }

  /** Day numbers follow calendar order, so they tell valid dates apart. */
  lemma DayNumberOrder(a: Date, b: Date)
    requires Valid(a) && Valid(b)
    ensures DayNumber(a) < DayNumber(b) <==> Before(a, b)
    ensures DayNumber(a) == DayNumber(b) <==> a == b
  {
    DaysBeforeMonthStep(a.year, 12);
    DaysBeforeMonthStep(b.year, 12);
    if a.year < b.year {
      DaysBeforeYearIncreasing(a.year, b.year);
    } else if b.year < a.year {
      DaysBeforeYearIncreasing(b.year, a.year);
    } else if a.month < b.month {
      MonthsIncreasing(a.year, a.month, b.month);
    } else if b.month < a.month {
      MonthsIncreasing(a.year, b.month, a.month);
    }
  }

  lemma {:induction false} MonthsIncreasing(y: int, m: nat, n: nat)
    requires 1 <= m < n <= 12
    ensures DaysBeforeMonth(y, m) + DaysInMonth(y, m) <= DaysBeforeMonth(y, n)
    decreases n - m
  {
    DaysBeforeMonthStep(y, m);
    if m + 1 < n {
      MonthsIncreasing(y, m + 1, n);
    }
  }

  /** 1 January 2024 was a Monday. */
  lemma WeekdayExample()
    ensures Weekday(Date(2024, 1, 1)) == 1
  {
  }
}
