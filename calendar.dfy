/** UTC calendar dates, the JavaScript one-month step `d.setMonth(d.getMonth() + 1)`
    and the monthly date grid that both chart pipelines build from it. */
module Calendar {

  /** A UTC calendar date at midnight; `month` runs from 1 to 12 as in the
      written `YYYY-MM-DD` form. */
  datatype Date = Date(year: int, month: int, day: int)

  predicate IsLeapYear(y: int) {
    y % 4 == 0 && (y % 100 != 0 || y % 400 == 0)
  }

  function DaysInMonth(y: int, m: int): int {
    if m == 2 then (if IsLeapYear(y) then 29 else 28)
    else if m == 4 || m == 6 || m == 9 || m == 11 then 30
    else 31
  }

  function DaysInYear(y: int): int {
    if IsLeapYear(y) then 366 else 365
  }

  /** A date that exists in the proleptic Gregorian calendar, from year 0 on. */
  predicate Valid(d: Date) {
    d.year >= 0 && 1 <= d.month <= 12 && 1 <= d.day <= DaysInMonth(d.year, d.month)
  }

  /** Strict chronological order; on valid dates of years 0 to 9999 it is the
      order of their `YYYY-MM-DD` strings (module IsoDate). */
  predicate Before(a: Date, b: Date) {
    a.year < b.year || (a.year == b.year && (a.month < b.month || (a.month == b.month && a.day < b.day)))
  }

  predicate AtOrBefore(a: Date, b: Date) {
    Before(a, b) || a == b
  }

  /** Days in the months of year `y` that precede month `m`. */
  function DaysBeforeMonth(y: int, m: int): int {
    (if m == 2 then 31
     else if m == 3 then 59
     else if m == 4 then 90
     else if m == 5 then 120
     else if m == 6 then 151
     else if m == 7 then 181
     else if m == 8 then 212
     else if m == 9 then 243
     else if m == 10 then 273
     else if m == 11 then 304
     else if m == 12 then 334
     else 0)
    + (if m > 2 && IsLeapYear(y) then 1 else 0)
  }

  /** Days from 0000-01-01 to the first day of year `y`. */
  function DaysBeforeYear(y: int): int
    decreases y
  {
    if y <= 0 then 0 else DaysBeforeYear(y - 1) + DaysInYear(y - 1)
  }

  /** Days since 0000-01-01; differences of day numbers are what differences of
      JavaScript millisecond timestamps of UTC midnights measure, in days. */
  function DayNumber(d: Date): int {
    DaysBeforeYear(d.year) + DaysBeforeMonth(d.year, d.month) + d.day - 1
  }

  lemma MonthEnd(y: int, m: int)
    requires 1 <= m <= 12
    ensures m < 12 ==> DaysBeforeMonth(y, m) + DaysInMonth(y, m) == DaysBeforeMonth(y, m + 1)
    ensures m == 12 ==> DaysBeforeMonth(y, m) + DaysInMonth(y, m) == DaysInYear(y)
  {
  }

  lemma {:induction false} DaysBeforeYearMonotone(a: int, b: int)
    requires 0 <= a <= b
    ensures DaysBeforeYear(a) + (b - a) * 365 <= DaysBeforeYear(b)
    decreases b - a
  {
    if a < b {
      DaysBeforeYearMonotone(a, b - 1);
    }
  }

  lemma DaysBeforeMonthMonotone(y: int, m1: int, m2: int)
    requires 1 <= m1 < m2 <= 12
    ensures DaysBeforeMonth(y, m1) + DaysInMonth(y, m1) <= DaysBeforeMonth(y, m2)
  {
  }

  /** Chronological order is the order of day numbers. */
  lemma {:induction false} DayNumberOrder(a: Date, b: Date)
    requires Valid(a) && Valid(b)
    ensures Before(a, b) <==> DayNumber(a) < DayNumber(b)
    ensures a == b <==> DayNumber(a) == DayNumber(b)
  {
    forall x, y | Valid(x) && Valid(y) && Before(x, y)
      ensures DayNumber(x) < DayNumber(y)
    {
      if x.year < y.year {
        MonthEnd(x.year, x.month);
        if x.month < 12 { DaysBeforeMonthMonotone(x.year, x.month, 12); MonthEnd(x.year, 12); }
        DaysBeforeYearMonotone(x.year + 1, y.year);
        assert DaysBeforeYear(x.year + 1) == DaysBeforeYear(x.year) + DaysInYear(x.year);
      } else if x.month < y.month {
        DaysBeforeMonthMonotone(x.year, x.month, y.month);
      }
    }
  }

  /** `d.setMonth(d.getMonth() + 1)` on a UTC date: the month advances by one
      (December rolls into January of the next year) and the day of the month is
      kept; a day the new month does not have overflows into the month after it
      (January 31 becomes March 3 in a common year). It is never clipped. */
  function AddMonth(d: Date): (r: Date)
    requires Valid(d)
    ensures Valid(r)
    ensures Before(d, r)
  {
    var next := if d.month == 12 then Date(d.year + 1, 1, d.day) else Date(d.year, d.month + 1, d.day);
    MonthEnd(d.year, d.month);
    if d.day <= DaysInMonth(next.year, next.month) then
      DayNumberOrder(d, next);
      next
    else
      var over := d.day - DaysInMonth(next.year, next.month);
      MonthEnd(next.year, next.month);
      var r := if next.month == 12 then Date(next.year + 1, 1, over) else Date(next.year, next.month + 1, over);
      DayNumberOrder(d, r);
      r
  }

  /** A step moves the date forward by exactly the length of its month. */
  lemma AddMonthDays(d: Date)
    requires Valid(d)
    ensures DayNumber(AddMonth(d)) == DayNumber(d) + DaysInMonth(d.year, d.month)
  {
    var next := if d.month == 12 then Date(d.year + 1, 1, d.day) else Date(d.year, d.month + 1, d.day);
    MonthEnd(d.year, d.month);
    if d.day > DaysInMonth(next.year, next.month) {
      MonthEnd(next.year, next.month);
    }
  }

  /** Dates `g` are the monthly grid from `start` up to `end`: `start` first, each
      later entry one `AddMonth` step after the previous one, every entry at or
      before `end`, and the step after the last entry beyond `end`. */
  ghost predicate IsMonthlyGrid(g: seq<Date>, start: Date, end: Date)
    requires Valid(start)
  {
    && (g == [] <==> Before(end, start))
    && (forall i :: 0 <= i < |g| ==> Valid(g[i]) && AtOrBefore(g[i], end))
    && (g != [] ==> g[0] == start && Before(end, AddMonth(g[|g| - 1])))
    && (forall i :: 0 < i < |g| ==> g[i] == AddMonth(g[i - 1]))
  }

  predicate StrictlyIncreasing(g: seq<Date>) {
    forall i, j :: 0 <= i < j < |g| ==> Before(g[i], g[j])
  }

  /** The grid the loop `while (currentDate <= endDate) { push(currentDate); step }`
      produces from `start`. */
  function GridFrom(start: Date, end: Date): (g: seq<Date>)
    requires Valid(start) && Valid(end)
    ensures StrictlyIncreasing(g)
    ensures forall i :: 0 <= i < |g| ==> AtOrBefore(start, g[i])
    decreases DayNumber(end) - DayNumber(start)
  {
    DayNumberOrder(start, end);
    if Before(end, start) then []
    else
      var next := AddMonth(start);
      DayNumberOrder(start, next);
      var rest := GridFrom(next, end);
      assert forall i :: 0 < i < |rest| + 1 ==> ([start] + rest)[i] == rest[i - 1];
      assert forall i :: 0 <= i < |rest| ==> Before(start, rest[i]) by {
        forall i | 0 <= i < |rest| ensures Before(start, rest[i]) {
          BeforeTransitive(start, next, rest[i]);
        }
      }
      [start] + rest
  }

  /** The grid loop produces a monthly grid. */
  lemma {:induction false} GridFromIsMonthlyGrid(start: Date, end: Date)
    requires Valid(start) && Valid(end)
    ensures IsMonthlyGrid(GridFrom(start, end), start, end)
    decreases DayNumber(end) - DayNumber(start)
  {
    DayNumberOrder(start, end);
    if !Before(end, start) {
      var next := AddMonth(start);
      DayNumberOrder(start, next);
      GridFromIsMonthlyGrid(next, end);
      GridFromStep([], start, end);
      MonthlyGridCons(start, GridFrom(next, end), end);
    }
  }

  /** A date at or before `end` followed by the monthly grid from the step after it
      is the monthly grid from that date. */
  lemma MonthlyGridCons(start: Date, rest: seq<Date>, end: Date)
    requires Valid(start) && AtOrBefore(start, end)
    requires IsMonthlyGrid(rest, AddMonth(start), end)
    ensures IsMonthlyGrid([start] + rest, start, end)
  {
    var g := [start] + rest;
    assert forall i :: 0 < i < |g| ==> g[i] == rest[i - 1];
    assert Before(end, AddMonth(g[|g| - 1])) by {
      if rest != [] { assert g[|g| - 1] == rest[|rest| - 1]; }
    }
    assert forall i :: 0 < i < |g| ==> g[i] == AddMonth(g[i - 1]) by {
      forall i | 0 < i < |g| ensures g[i] == AddMonth(g[i - 1]) {
        if i > 1 { assert g[i - 1] == rest[i - 2]; }
      }
    }
  }

  lemma BeforeTransitive(a: Date, b: Date, c: Date)
    requires Before(a, b) && AtOrBefore(b, c)
    ensures Before(a, c)
  {
  }

  lemma AtOrBeforeTransitive(a: Date, b: Date, c: Date)
    requires AtOrBefore(a, b) && AtOrBefore(b, c)
    ensures AtOrBefore(a, c)
  {
  }

  /** One step of the grid loop: `current` is pushed onto the dates so far and
      the rest of the grid starts one month later. */
  lemma GridFromStep(dates: seq<Date>, current: Date, end: Date)
    requires Valid(current) && Valid(end) && AtOrBefore(current, end)
    ensures dates + GridFrom(current, end) == (dates + [current]) + GridFrom(AddMonth(current), end)
  {
    var rest := GridFrom(AddMonth(current), end);
    assert GridFrom(current, end) == [current] + rest;
    assert dates + ([current] + rest) == (dates + [current]) + rest;
  }

  lemma GridFromPast(current: Date, end: Date)
    requires Valid(current) && Valid(end) && !AtOrBefore(current, end)
    ensures GridFrom(current, end) == []
  {
  }

  /** From a start on day 28 or earlier no month overflows, so every grid date
      keeps the start's day of the month; a date on another day is never on the
      grid. */
  lemma {:induction false} GridKeepsDay(start: Date, end: Date)
    requires Valid(start) && Valid(end) && start.day <= 28
    ensures forall i :: 0 <= i < |GridFrom(start, end)| ==> GridFrom(start, end)[i].day == start.day
    decreases DayNumber(end) - DayNumber(start)
  {
    DayNumberOrder(start, end);
    if AtOrBefore(start, end) {
      var next := AddMonth(start);
      GridKeepsDay(next, end);
      GridFromStep([], start, end);
    }
  }

  /** The properties of IsMonthlyGrid determine the grid: any sequence that has
      them is GridFrom(start, end). */
  lemma {:induction false} MonthlyGridUnique(g: seq<Date>, start: Date, end: Date)
    requires Valid(start) && Valid(end)
    requires IsMonthlyGrid(g, start, end)
    ensures g == GridFrom(start, end)
    decreases |g|
  {
    if g != [] {
      MonthlyGridTail(g, start, end);
      MonthlyGridUnique(g[1..], AddMonth(start), end);
      GridFromStep([], start, end);
    }
  }

  /** Past its first date a monthly grid is the monthly grid from the next step. */
  lemma MonthlyGridTail(g: seq<Date>, start: Date, end: Date)
    requires Valid(start) && IsMonthlyGrid(g, start, end) && g != []
    ensures AtOrBefore(start, end)
    ensures g == [start] + g[1..]
    ensures IsMonthlyGrid(g[1..], AddMonth(start), end)
  {
    var rest := g[1..];
    var next := AddMonth(start);
    if rest == [] {
      assert Before(end, next);
    } else {
      assert rest[0] == AddMonth(g[0]);
      assert forall i :: 0 < i < |rest| ==> rest[i] == AddMonth(rest[i - 1]) by {
        forall i | 0 < i < |rest| ensures rest[i] == AddMonth(rest[i - 1]) {
          assert rest[i] == g[i + 1] && rest[i - 1] == g[i];
        }
      }
      assert !Before(end, next) by {
        assert AtOrBefore(rest[0], end);
      }
    }
    assert forall i :: 0 <= i < |rest| ==> Valid(rest[i]) && AtOrBefore(rest[i], end) by {
      forall i | 0 <= i < |rest| ensures Valid(rest[i]) && AtOrBefore(rest[i], end) {
        assert rest[i] == g[i + 1];
      }
    }
    assert g == [start] + rest;
  }

  /** The earliest of a non-empty list of dates (`Math.min` over their timestamps). */
  function Earliest(ds: seq<Date>): (r: Date)
    requires ds != []
    ensures r in ds
    ensures forall i :: 0 <= i < |ds| ==> AtOrBefore(r, ds[i])
  {
    if |ds| == 1 then ds[0]
    else
      var m := Earliest(ds[1..]);
      assert forall i :: 1 <= i < |ds| ==> ds[i] == ds[1..][i - 1];
      if AtOrBefore(ds[0], m) then ds[0] else m
  }

  /** The latest of a non-empty list of dates. */
  function Latest(ds: seq<Date>): (r: Date)
    requires ds != []
    ensures r in ds
    ensures forall i :: 0 <= i < |ds| ==> AtOrBefore(ds[i], r)
  {
    if |ds| == 1 then ds[0]
    else
      var m := Latest(ds[1..]);
      assert forall i :: 1 <= i < |ds| ==> ds[i] == ds[1..][i - 1];
      if AtOrBefore(m, ds[0]) then ds[0] else m
  }
}
