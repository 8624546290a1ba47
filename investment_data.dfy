/** The investment-history hook: the monthly date grid from the earliest
    investment to "now", one series per project that accumulates invested
    amounts and compounds growth after the project's last investment, and the
    chart rows that merge the series for the active projects. */
module InvestmentData {
  import opened Calendar
  import opened Investments

  /** One point of a project's series, `{ date, price }`. */
  datatype Point = Point(date: Date, price: int)

  /** One chart row: its `date` and one value per active project. */
  datatype Row = Row(date: Date, values: map<string, int>)

  /** `Math.round`: the nearest integer, halves rounded up. */
  function Round(x: real): (n: int)
    ensures (n as real) - 0.5 <= x < (n as real) + 0.5
  {
    (x + 0.5).Floor
  }

  // ---------------------------------------------------------------------------
  // The date grid
  // ---------------------------------------------------------------------------

  /** `dateRange`: empty without investments, otherwise the monthly grid from the
      earliest investment date while at or before `now`, sorted. */
  method DateRange(investments: seq<Investment>, now: Date) returns (dates: seq<Date>)
    requires DatesValid(investments) && Valid(now)
    ensures investments == [] ==> dates == []
    ensures investments != [] ==> dates == GridFrom(Earliest(DatesOf(investments)), now)
    ensures StrictlyIncreasing(dates)
  {
    if |investments| == 0 {
      return [];
    }
    var startDate := Earliest(DatesOf(investments));
    dates := [];
    var currentDate := startDate;
    while AtOrBefore(currentDate, now)
      invariant Valid(currentDate)
      invariant dates + GridFrom(currentDate, now) == GridFrom(startDate, now)
      decreases DayNumber(now) - DayNumber(currentDate)
    {
      DayNumberOrder(currentDate, now);
      GridFromStep(dates, currentDate, now);
      var nextDate := AddMonth(currentDate);
      DayNumberOrder(currentDate, nextDate);
      dates := dates + [currentDate];
      currentDate := nextDate;
    }
    GridFromPast(currentDate, now);
    assert dates == GridFrom(startDate, now);
  }

  // ---------------------------------------------------------------------------
  // Per-project series
  // ---------------------------------------------------------------------------

  /** `investments.filter(inv => inv.project === project)` */
  function ProjectEvents(investments: seq<Investment>, project: string): (r: seq<Investment>)
    ensures forall k :: 0 <= k < |r| ==> r[k].project == project && r[k] in investments
    ensures forall k :: 0 <= k < |investments| && investments[k].project == project ==> investments[k] in r
  {
    if investments == [] then []
    else
      var init := ProjectEvents(investments[..|investments| - 1], project);
      var e := investments[|investments| - 1];
      assert investments == investments[..|investments| - 1] + [e];
      if e.project == project then init + [e] else init
  }

  /** The filter keeps every occurrence of each of the project's events and
      nothing else: two identical tranches stay two. */
  lemma {:induction false} ProjectEventsCount(investments: seq<Investment>, project: string)
    ensures forall x :: multiset(ProjectEvents(investments, project))[x]
                     == if x.project == project then multiset(investments)[x] else 0
  {
    if investments != [] {
      var init := investments[..|investments| - 1];
      ProjectEventsCount(init, project);
      assert investments == init + [investments[|investments| - 1]];
    }
  }

  /** The filter distributes over concatenation; with the one-element case of
      its definition this fixes it: the project's events, in input order. */
  lemma {:induction false} ProjectEventsAppend(a: seq<Investment>, b: seq<Investment>, project: string)
    ensures ProjectEvents(a + b, project) == ProjectEvents(a, project) + ProjectEvents(b, project)
    decreases |b|
  {
    if b == [] {
      assert a + b == a;
    } else {
      var init := b[..|b| - 1];
      ProjectEventsAppend(a, init, project);
      assert (a + b)[..|a + b| - 1] == a + init;
    }
  }

  /** Sum of the amounts of the events dated `date`:
      `events.filter(inv => inv.date === date).reduce((sum, inv) => sum + inv.amount, 0)`. */
  function SumOn(events: seq<Investment>, date: Date): (r: real)
    ensures (forall k :: 0 <= k < |events| ==> events[k].date != date) ==> r == 0.0
    ensures (forall k :: 0 <= k < |events| ==> events[k].amount >= 0.0) ==> r >= 0.0
  {
    if events == [] then 0.0
    else
      var e := events[|events| - 1];
      SumOn(events[..|events| - 1], date) + (if e.date == date then e.amount else 0.0)
  }

  /** Sum of the amounts of the events dated at one of `ds`, each event counted once. */
  function MatchedSum(events: seq<Investment>, ds: seq<Date>): real {
    if events == [] then 0.0
    else
      var e := events[|events| - 1];
      MatchedSum(events[..|events| - 1], ds) + (if e.date in ds then e.amount else 0.0)
  }

  /** `x` raised to the `n`-th power (`Math.pow` with a whole exponent; the
      exponent is never negative, MonthsSinceNonNegative). */
  function Pow(x: real, n: int): (r: real)
    ensures x >= 1.0 ==> r >= 1.0
    decreases n
  {
    if n <= 0 then 1.0
    else
      var p := Pow(x, n - 1);
      assert x >= 1.0 ==> x * p >= p;
      x * p
  }

  /** The monthly rate 0.5% plus the non-negative part of a ±0.25% variation;
      `sine(date)` stands for `Math.sin(new Date(date).getTime())`. */
  function MonthlyRate(date: Date, sine: Date -> real): (r: real)
    ensures r >= 0.005
    ensures -1.0 <= sine(date) <= 1.0 ==> r <= 0.0075
  {
    var variableGrowth := sine(date) * 0.0025;
    0.005 + (if variableGrowth > 0.0 then variableGrowth else 0.0)
  }

  /** `Math.floor((time(date) - time(last)) / (1000 * 60 * 60 * 24 * 30))`:
      whole 30-day periods between two UTC midnights. */
  function MonthsSince(last: Date, date: Date): (n: int)
    ensures 30 * n <= DayNumber(date) - DayNumber(last) < 30 * n + 30
  {
    (DayNumber(date) - DayNumber(last)) / 30
  }

  lemma MonthsSinceNonNegative(last: Date, date: Date)
    requires Valid(last) && Valid(date) && Before(last, date)
    ensures MonthsSince(last, date) >= 0
  {
    DayNumberOrder(last, date);
  }

  /** `Math.pow(1 + monthlyGrowthRate, monthsSinceLastInvestment)` */
  function GrowthFactor(date: Date, last: Date, sine: Date -> real): (f: real)
    ensures f >= 1.0
  {
    Pow(1.0 + MonthlyRate(date, sine), MonthsSince(last, date))
  }

  /** What a project's series is built from: its events, their first and last
      dates, and the sine values of the growth formula. */
  datatype Context = Context(events: seq<Investment>, first: Date, last: Date, sine: Date -> real)

  lemma ScaleUp(x: real, f: real)
    requires x >= 0.0 && f >= 1.0
    ensures x * f >= x
  {
    assert x * f - x == x * (f - 1.0);
  }

  /** The accumulated value after the loop body has run at `date` with value `acc`;
      with non-negative amounts it never lowers a non-negative value. */
  function Accumulate(acc: real, date: Date, c: Context): (r: real)
    ensures acc >= 0.0 && (forall k :: 0 <= k < |c.events| ==> c.events[k].amount >= 0.0) ==> r >= acc
  {
    if Before(date, c.first) then acc
    else
      var added := acc + SumOn(c.events, date);
      if Before(c.last, date) && added > 0.0 then
        var f := GrowthFactor(date, c.last, c.sine);
        ScaleUp(added, f);
        added * f
      else added
  }

  /** The accumulated value after the loop has run over the dates `ds`. */
  function Accumulated(ds: seq<Date>, c: Context): (r: real)
    ensures (forall k :: 0 <= k < |c.events| ==> c.events[k].amount >= 0.0) ==> r >= 0.0
  {
    if ds == [] then 0.0 else Accumulate(Accumulated(ds[..|ds| - 1], c), ds[|ds| - 1], c)
  }

  /** The price pushed at the last of `ds`: 0 before the first investment,
      otherwise the rounded accumulated value. */
  function PriceAt(ds: seq<Date>, c: Context): int
    requires ds != []
  {
    if Before(ds[|ds| - 1], c.first) then 0 else Round(Accumulated(ds, c))
  }

  /** What the pushed price means: 0 before the first investment, otherwise the
      accumulated value to the nearest integer, and never negative when no amount is. */
  lemma PriceAtMeaning(ds: seq<Date>, c: Context)
    requires ds != []
    ensures Before(ds[|ds| - 1], c.first) ==> PriceAt(ds, c) == 0
    ensures !Before(ds[|ds| - 1], c.first) ==>
      (PriceAt(ds, c) as real) - 0.5 <= Accumulated(ds, c) < (PriceAt(ds, c) as real) + 0.5
    ensures (forall k :: 0 <= k < |c.events| ==> c.events[k].amount >= 0.0) ==> PriceAt(ds, c) >= 0
  {
  }

  /** The points the loop pushes over the dates `ds`. */
  function Trace(ds: seq<Date>, c: Context): (s: seq<Point>)
    ensures |s| == |ds|
    ensures forall i :: 0 <= i < |s| ==> s[i].date == ds[i]
  {
    if ds == [] then []
    else
      var init := Trace(ds[..|ds| - 1], c);
      init + [Point(ds[|ds| - 1], PriceAt(ds, c))]
  }

  /** One more loop iteration, at `ds[i]`. */
  lemma TraceStep(ds: seq<Date>, i: nat, c: Context)
    requires i < |ds|
    ensures Accumulated(ds[..i + 1], c) == Accumulate(Accumulated(ds[..i], c), ds[i], c)
    ensures PriceAt(ds[..i + 1], c) == if Before(ds[i], c.first) then 0 else Round(Accumulated(ds[..i + 1], c))
    ensures Trace(ds[..i + 1], c) == Trace(ds[..i], c) + [Point(ds[i], PriceAt(ds[..i + 1], c))]
  {
    assert ds[..i + 1][..i] == ds[..i];
  }

  /** The series of `project` over `grid`; empty for a project with no events. */
  function ProjectSeries(investments: seq<Investment>, grid: seq<Date>, project: string, sine: Date -> real)
    : (s: seq<Point>)
    ensures s == [] || |s| == |grid|
    ensures forall i :: 0 <= i < |s| ==> s[i].date == grid[i]
  {
    var events := ProjectEvents(investments, project);
    if events == [] then []
    else Trace(grid, Context(events, Earliest(DatesOf(events)), Latest(DatesOf(events)), sine))
  }

  /** A project that occurs gets exactly one point per grid date, in grid order;
      a name with no events gets the empty series. */
  lemma ProjectSeriesShape(investments: seq<Investment>, grid: seq<Date>, project: string, sine: Date -> real)
    ensures var s := ProjectSeries(investments, grid, project, sine);
      && ((exists k :: 0 <= k < |investments| && investments[k].project == project) ==>
            |s| == |grid| && forall i :: 0 <= i < |s| ==> s[i].date == grid[i])
      && ((forall k :: 0 <= k < |investments| ==> investments[k].project != project) ==> s == [])
  {
    if k :| 0 <= k < |investments| && investments[k].project == project {
      assert investments[k] in ProjectEvents(investments, project);
    }
  }

  /** The loop body from a grid date on or after the first investment, the step
      that `Accumulate` specifies: add the
      amounts invested on that date, then compound growth if the date is after
      the last investment and the value is positive. */
  method AddAndGrow(accumulatedValue: real, date: Date, c: Context) returns (value: real)
    requires !Before(date, c.first)
    ensures value == Accumulate(accumulatedValue, date, c)
  {
    value := accumulatedValue;
    var investmentsOnDate := SumOn(c.events, date);
    value := value + investmentsOnDate;
    if Before(c.last, date) && value > 0.0 {
      var monthsSinceLastInvestment := MonthsSince(c.last, date);
      var monthlyGrowthRate := MonthlyRate(date, c.sine);
      value := value * Pow(1.0 + monthlyGrowthRate, monthsSinceLastInvestment);
    }
  }

  /** The `uniqueProjects.forEach` callback for one project: the points of every
      grid date, pushed with a running accumulated value. */
  method ProjectPoints(investments: seq<Investment>, project: string, dateRange: seq<Date>, sine: Date -> real)
    returns (points: seq<Point>)
    ensures points == ProjectSeries(investments, dateRange, project, sine)
  {
    points := [];
    var projectInvestments := ProjectEvents(investments, project);
    if |projectInvestments| == 0 {
      return;
    }
    var c := Context(projectInvestments, Earliest(DatesOf(projectInvestments)),
                     Latest(DatesOf(projectInvestments)), sine);
    var accumulatedValue := 0.0;
    var i := 0;
    while i < |dateRange|
      invariant 0 <= i <= |dateRange|
      invariant accumulatedValue == Accumulated(dateRange[..i], c)
      invariant points == Trace(dateRange[..i], c)
    {
      var date := dateRange[i];
      if Before(date, c.first) {
        points := points + [Point(date, 0)];
      } else {
        accumulatedValue := AddAndGrow(accumulatedValue, date, c);
        points := points + [Point(date, Round(accumulatedValue))];
      }
      TraceStep(dateRange, i, c);
      i := i + 1;
    }
    assert dateRange[..i] == dateRange;
  }

  /** `projectTimeSeries`: a series for each project. */
  method ProjectTimeSeries(investments: seq<Investment>, uniqueProjects: seq<string>, dateRange: seq<Date>, sine: Date -> real)
    returns (series: map<string, seq<Point>>)
    ensures series.Keys == set p | p in uniqueProjects
    ensures forall p :: p in series ==> series[p] == ProjectSeries(investments, dateRange, p, sine)
  {
    series := map[];
    var n := 0;
    while n < |uniqueProjects|
      invariant 0 <= n <= |uniqueProjects|
      invariant forall p :: p in series <==> p in uniqueProjects[..n]
      invariant forall p :: p in series ==> series[p] == ProjectSeries(investments, dateRange, p, sine)
    {
      var project := uniqueProjects[n];
      var points := ProjectPoints(investments, project, dateRange, sine);
      series := series[project := points];
      assert uniqueProjects[..n + 1] == uniqueProjects[..n] + [project];
      n := n + 1;
    }
    assert uniqueProjects[..n] == uniqueProjects;
  }

  // ---------------------------------------------------------------------------
  // Properties of the series
  // ---------------------------------------------------------------------------

  lemma {:induction false} TraceAt(ds: seq<Date>, c: Context, i: nat)
    requires i < |ds|
    ensures Trace(ds, c)[i] == Point(ds[i], PriceAt(ds[..i + 1], c))
    decreases |ds|
  {
    var init := ds[..|ds| - 1];
    if i < |ds| - 1 {
      TraceAt(init, c, i);
      assert init[..i + 1] == ds[..i + 1];
    } else {
      assert ds[..i + 1] == ds;
    }
  }

  /** The events lie between the context's first and last dates. */
  ghost predicate EventsWithin(c: Context) {
    forall k :: 0 <= k < |c.events| ==> AtOrBefore(c.first, c.events[k].date) && AtOrBefore(c.events[k].date, c.last)
  }

  lemma ProjectContextWithin(investments: seq<Investment>, project: string, sine: Date -> real)
    requires ProjectEvents(investments, project) != []
    ensures var events := ProjectEvents(investments, project);
      EventsWithin(Context(events, Earliest(DatesOf(events)), Latest(DatesOf(events)), sine))
  {
    var events := ProjectEvents(investments, project);
    assert forall k :: 0 <= k < |events| ==> DatesOf(events)[k] == events[k].date;
  }

  lemma {:induction false} MatchedSumEmpty(events: seq<Investment>)
    ensures MatchedSum(events, []) == 0.0
  {
    if events != [] {
      MatchedSumEmpty(events[..|events| - 1]);
    }
  }

  /** Adding a new grid date adds the amounts of exactly the events on that date. */
  lemma {:induction false} MatchedSumSnoc(events: seq<Investment>, ds: seq<Date>, d: Date)
    requires d !in ds
    ensures MatchedSum(events, ds + [d]) == MatchedSum(events, ds) + SumOn(events, d)
  {
    if events != [] {
      MatchedSumSnoc(events[..|events| - 1], ds, d);
    }
  }


  /** Up to the last investment date no growth is applied: the accumulated value
      is the sum of the amounts of the events dated at one of the dates so far,
      so same-day tranches add up. */
  lemma {:induction false} AccumulatedUpToLast(ds: seq<Date>, c: Context)
    requires StrictlyIncreasing(ds)
    requires EventsWithin(c)
    requires forall k :: 0 <= k < |ds| ==> AtOrBefore(ds[k], c.last)
    ensures Accumulated(ds, c) == MatchedSum(c.events, ds)
    decreases |ds|
  {
    if ds == [] {
      MatchedSumEmpty(c.events);
    } else {
      var init := ds[..|ds| - 1];
      var d := ds[|ds| - 1];
      AccumulatedUpToLast(init, c);
      assert d !in init by {
        forall k | 0 <= k < |init| ensures init[k] != d {
          assert Before(ds[k], ds[|ds| - 1]);
        }
      }
      MatchedSumSnoc(c.events, init, d);
      assert ds == init + [d];
      if Before(d, c.first) {
        assert forall k :: 0 <= k < |c.events| ==> c.events[k].date != d;
      }
    }
  }

  /** A point dated at or before the project's last investment carries the
      rounded sum of the project's amounts dated at grid dates up to it. */
  lemma ValueUpToLastInvestment(investments: seq<Investment>, grid: seq<Date>, project: string, sine: Date -> real, i: nat)
    requires StrictlyIncreasing(grid)
    requires i < |grid|
    requires exists k :: 0 <= k < |investments| && investments[k].project == project && AtOrBefore(grid[i], investments[k].date)
    ensures ProjectSeries(investments, grid, project, sine)[i].price
         == Round(MatchedSum(ProjectEvents(investments, project), grid[..i + 1]))
  {
    var events := ProjectEvents(investments, project);
    var k :| 0 <= k < |investments| && investments[k].project == project && AtOrBefore(grid[i], investments[k].date);
    var c := Context(events, Earliest(DatesOf(events)), Latest(DatesOf(events)), sine);
    LastBoundsEvent(investments, project, k);
    ProjectContextWithin(investments, project, sine);
    AtOrBeforeTransitive(grid[i], investments[k].date, c.last);
    PrefixUpTo(grid, i, c.last);
    PriceUpToLast(grid[..i + 1], c);
    TraceAt(grid, c, i);
    assert ProjectSeries(investments, grid, project, sine) == Trace(grid, c);
  }

  /** Every event of a project is at or before the project's last date. */
  lemma LastBoundsEvent(investments: seq<Investment>, project: string, k: nat)
    requires k < |investments| && investments[k].project == project
    ensures ProjectEvents(investments, project) != []
    ensures AtOrBefore(investments[k].date, Latest(DatesOf(ProjectEvents(investments, project))))
  {
    var events := ProjectEvents(investments, project);
    assert investments[k] in events;
    var j :| 0 <= j < |events| && events[j] == investments[k];
    assert DatesOf(events)[j] == investments[k].date;
  }

  /** The grid dates up to index `i` are sorted and at or before any date `d`
      that `grid[i]` is at or before. */
  lemma PrefixUpTo(grid: seq<Date>, i: nat, d: Date)
    requires StrictlyIncreasing(grid) && i < |grid| && AtOrBefore(grid[i], d)
    ensures StrictlyIncreasing(grid[..i + 1])
    ensures forall m :: 0 <= m <= i ==> AtOrBefore(grid[m], d)
  {
    forall m | 0 <= m <= i ensures AtOrBefore(grid[m], d) {
      assert m == i || Before(grid[m], grid[i]);
    }
  }

  lemma PriceUpToLast(ds: seq<Date>, c: Context)
    requires ds != [] && StrictlyIncreasing(ds)
    requires EventsWithin(c)
    requires forall m :: 0 <= m < |ds| ==> AtOrBefore(ds[m], c.last)
    ensures PriceAt(ds, c) == Round(MatchedSum(c.events, ds))
  {
    AccumulatedUpToLast(ds, c);
    var d := ds[|ds| - 1];
    if Before(d, c.first) {
      assert forall m :: 0 <= m < |ds| ==> Before(ds[m], c.first) by {
        forall m | 0 <= m < |ds| ensures Before(ds[m], c.first) {
          assert m == |ds| - 1 || Before(ds[m], d);
        }
      }
      MatchedSumZero(c.events, ds, c.first);
    }
  }

  /** No event is dated at one of `ds` when all of them precede `first`. */
  lemma {:induction false} MatchedSumZero(events: seq<Investment>, ds: seq<Date>, first: Date)
    requires forall k :: 0 <= k < |events| ==> AtOrBefore(first, events[k].date)
    requires forall m :: 0 <= m < |ds| ==> Before(ds[m], first)
    ensures MatchedSum(events, ds) == 0.0
  {
    if events != [] {
      MatchedSumZero(events[..|events| - 1], ds, first);
      var e := events[|events| - 1];
      assert e.date !in ds by {
        assert AtOrBefore(first, events[|events| - 1].date);
      }
    }
  }

  /** Before a project's first investment its points are 0. */
  lemma ZeroBeforeFirstInvestment(investments: seq<Investment>, grid: seq<Date>, project: string, sine: Date -> real, i: nat)
    requires exists k :: 0 <= k < |investments| && investments[k].project == project
    requires i < |grid|
    requires forall k :: 0 <= k < |investments| && investments[k].project == project ==> Before(grid[i], investments[k].date)
    ensures ProjectSeries(investments, grid, project, sine)[i].price == 0
  {
    var events := ProjectEvents(investments, project);
    var k :| 0 <= k < |investments| && investments[k].project == project;
    assert investments[k] in events;
    var c := Context(events, Earliest(DatesOf(events)), Latest(DatesOf(events)), sine);
    var j :| 0 <= j < |events| && DatesOf(events)[j] == c.first;
    assert events[j] in investments;
    TraceAt(grid, c, i);
    assert grid[..i + 1][i] == grid[i];
  }

  lemma {:induction false} AccumulatedOffGrid(ds: seq<Date>, c: Context)
    requires forall k, m :: 0 <= k < |c.events| && 0 <= m < |ds| ==> c.events[k].date != ds[m]
    ensures Accumulated(ds, c) == 0.0
    decreases |ds|
  {
    if ds != [] {
      var init := ds[..|ds| - 1];
      AccumulatedOffGrid(init, c);
    }
  }

  /** Amounts are only ever added on grid dates equal to an event's date: a
      project none of whose events falls on a grid date shows 0 throughout. */
  lemma OffGridEventsNeverCounted(investments: seq<Investment>, grid: seq<Date>, project: string, sine: Date -> real, i: nat)
    requires exists k :: 0 <= k < |investments| && investments[k].project == project
    requires i < |grid|
    requires forall k :: 0 <= k < |investments| && investments[k].project == project ==> investments[k].date !in grid
    ensures ProjectSeries(investments, grid, project, sine)[i].price == 0
  {
    var events := ProjectEvents(investments, project);
    var k :| 0 <= k < |investments| && investments[k].project == project;
    assert investments[k] in events;
    var c := Context(events, Earliest(DatesOf(events)), Latest(DatesOf(events)), sine);
    var ds := grid[..i + 1];
    assert forall e, m :: 0 <= e < |events| && 0 <= m < |ds| ==> events[e].date != ds[m] by {
      forall e, m | 0 <= e < |events| && 0 <= m < |ds| ensures events[e].date != ds[m] {
        assert events[e] in investments;
        assert ds[m] == grid[m];
      }
    }
    AccumulatedOffGrid(ds, c);
    TraceAt(grid, c, i);
  }

  /** After the last investment no amount is added: at a grid date `d` past it
      the loop body multiplies a positive value by that date's growth factor,
      which is at least 1, and keeps any other value. */
  lemma GrowthAfterLastInvestment(before: real, d: Date, c: Context)
    requires EventsWithin(c) && Before(c.last, d)
    ensures before > 0.0 && c.events != [] ==> Accumulate(before, d, c) == before * GrowthFactor(d, c.last, c.sine)
    ensures before > 0.0 ==> Accumulate(before, d, c) >= before
    ensures before <= 0.0 ==> Accumulate(before, d, c) == before
  {
    assert SumOn(c.events, d) == 0.0 by {
      forall k | 0 <= k < |c.events| ensures c.events[k].date != d {
        assert AtOrBefore(c.events[k].date, c.last);
      }
    }
    if c.events != [] {
      assert AtOrBefore(c.first, c.events[0].date) && AtOrBefore(c.events[0].date, c.last);
    }
    if Before(d, c.first) {
      assert Accumulate(before, d, c) == before;
    } else if before > 0.0 {
      var f := GrowthFactor(d, c.last, c.sine);
      assert Accumulate(before, d, c) == before * f;
      ScaleUp(before, f);
    } else {
      assert Accumulate(before, d, c) == before;
    }
  }

  lemma {:induction false} TraceNonDecreasing(ds: seq<Date>, c: Context)
    requires StrictlyIncreasing(ds)
    requires forall k :: 0 <= k < |c.events| ==> c.events[k].amount >= 0.0
    ensures ds != [] ==> forall i :: 0 <= i < |ds| ==> Trace(ds, c)[i].price <= PriceAt(ds, c)
    ensures forall i, j :: 0 <= i <= j < |ds| ==> Trace(ds, c)[i].price <= Trace(ds, c)[j].price
    decreases |ds|
  {
    if ds != [] {
      var init := ds[..|ds| - 1];
      var d := ds[|ds| - 1];
      assert StrictlyIncreasing(init);
      TraceNonDecreasing(init, c);
      var t := Trace(ds, c);
      assert t == Trace(init, c) + [Point(d, PriceAt(ds, c))];
      if init != [] {
        var d0 := init[|init| - 1];
        assert Before(d0, d);
        assert PriceAt(init, c) <= PriceAt(ds, c);
      }
    }
  }

  /** With non-negative amounts each project's series is non-decreasing. */
  lemma SeriesNonDecreasing(investments: seq<Investment>, grid: seq<Date>, project: string, sine: Date -> real)
    requires StrictlyIncreasing(grid)
    requires forall k :: 0 <= k < |investments| ==> investments[k].amount >= 0.0
    ensures var s := ProjectSeries(investments, grid, project, sine);
      forall i, j :: 0 <= i <= j < |s| ==> s[i].price <= s[j].price
  {
    var events := ProjectEvents(investments, project);
    if events != [] {
      assert forall k :: 0 <= k < |events| ==> events[k].amount >= 0.0 by {
        forall k | 0 <= k < |events| ensures events[k].amount >= 0.0 {
          assert events[k] in investments;
        }
      }
      TraceNonDecreasing(grid, Context(events, Earliest(DatesOf(events)), Latest(DatesOf(events)), sine));
    }
  }

  // ---------------------------------------------------------------------------
  // Chart rows
  // ---------------------------------------------------------------------------

  /** `points.find(d => d.date === date)`, as an index; the same first-match
      search as `DetailsView.FindCell` and `DetailsView.GridIndex`, over points. */
  function FindIndex(points: seq<Point>, date: Date): (r: Option<nat>)
    ensures r.Some? ==> (r.value < |points| && points[r.value].date == date
                         && forall j :: 0 <= j < r.value ==> points[j].date != date)
    ensures r.None? ==> forall j :: 0 <= j < |points| ==> points[j].date != date
  {
    if points == [] then None
    else if points[0].date == date then Some(0)
    else match FindIndex(points[1..], date)
      case None => None
      case Some(k) => Some(k + 1)
  }

  /** The last element of `points.filter(d => d.date <= date)`, as an index. */
  function LastAtOrBefore(points: seq<Point>, date: Date): (r: Option<nat>)
    ensures r.Some? ==> (r.value < |points| && AtOrBefore(points[r.value].date, date)
                         && forall j :: r.value < j < |points| ==> !AtOrBefore(points[j].date, date))
    ensures r.None? ==> forall j :: 0 <= j < |points| ==> !AtOrBefore(points[j].date, date)
  {
    if points == [] then None
    else if AtOrBefore(points[|points| - 1].date, date) then Some(|points| - 1)
    else LastAtOrBefore(points[..|points| - 1], date)
  }

  /** The value a row shows for a project: its point at `date`, else its last
      point dated at or before `date`, else 0. */
  function ChartValue(points: seq<Point>, date: Date): (v: int)
    ensures forall k :: (0 <= k < |points| && points[k].date == date
                         && forall j :: 0 <= j < k ==> points[j].date != date) ==> v == points[k].price
    ensures (forall j :: 0 <= j < |points| ==> points[j].date != date) ==>
              forall k :: (0 <= k < |points| && AtOrBefore(points[k].date, date)
                           && forall j :: k < j < |points| ==> !AtOrBefore(points[j].date, date)) ==> v == points[k].price
    ensures (forall j :: 0 <= j < |points| ==> !AtOrBefore(points[j].date, date)) ==> v == 0
  {
    match FindIndex(points, date)
    case Some(k) => points[k].price
    case None =>
      match LastAtOrBefore(points, date)
      case Some(k) => points[k].price
      case None => 0
  }

  /** The row at `date`: a value for each active project that has a series. */
  function ChartRow(date: Date, activeProjects: seq<string>, series: map<string, seq<Point>>): (r: Row)
    ensures r.date == date
    ensures r.values.Keys == (set p | p in activeProjects) * series.Keys
    ensures forall p :: p in r.values ==> r.values[p] == ChartValue(series[p], date)
  {
    Row(date, map p | p in activeProjects && p in series :: ChartValue(series[p], date))
  }

  /** `getCombinedChartData`: one row per grid date, in grid order. */
  method GetCombinedChartData(showAll: bool, selectedInvestments: seq<string>, uniqueProjects: seq<string>,
                              dateRange: seq<Date>, series: map<string, seq<Point>>)
    returns (rows: seq<Row>)
    ensures |rows| == |dateRange|
    ensures forall i :: 0 <= i < |rows| ==>
      rows[i] == ChartRow(dateRange[i], if showAll then uniqueProjects else selectedInvestments, series)
  {
    var activeProjects := if showAll then uniqueProjects else selectedInvestments;
    rows := [];
    var i := 0;
    while i < |dateRange|
      invariant 0 <= i <= |dateRange|
      invariant |rows| == i
      invariant forall m :: 0 <= m < i ==> rows[m] == ChartRow(dateRange[m], activeProjects, series)
    {
      var date := dateRange[i];
      var dataPoint: map<string, int> := map[];
      var n := 0;
      while n < |activeProjects|
        invariant 0 <= n <= |activeProjects|
        invariant dataPoint.Keys == (set p | p in activeProjects[..n]) * series.Keys
        invariant forall p :: p in dataPoint ==> dataPoint[p] == ChartValue(series[p], date)
      {
        var project := activeProjects[n];
        if project in series {
          var projectData := series[project];
          var matchingPoint := FindIndex(projectData, date);
          if matchingPoint.Some? {
            dataPoint := dataPoint[project := projectData[matchingPoint.value].price];
          } else {
            var previous := LastAtOrBefore(projectData, date);
            if previous.Some? {
              dataPoint := dataPoint[project := projectData[previous.value].price];
            } else {
              dataPoint := dataPoint[project := 0];
            }
          }
        }
        assert activeProjects[..n + 1] == activeProjects[..n] + [project];
        n := n + 1;
      }
      assert activeProjects[..n] == activeProjects;
      rows := rows + [Row(date, dataPoint)];
      i := i + 1;
    }
  }

  /** On a grid-aligned series the row value is the point at that grid date. */
  lemma ChartValueAligned(points: seq<Point>, grid: seq<Date>, i: nat)
    requires StrictlyIncreasing(grid)
    requires |points| == |grid| && i < |grid|
    requires forall m :: 0 <= m < |points| ==> points[m].date == grid[m]
    ensures ChartValue(points, grid[i]) == points[i].price
  {
    assert points[i].date == grid[i];
  }

  /** In every row, each active project with a series shows its series' point
      at that row's date; no other key is present. */
  lemma RowsShowSeriesPoints(investments: seq<Investment>, sine: Date -> real,
                             grid: seq<Date>, activeProjects: seq<string>, i: nat, project: string)
    requires StrictlyIncreasing(grid) && i < |grid|
    requires project in activeProjects
    requires exists k :: 0 <= k < |investments| && investments[k].project == project
    ensures var series := map p | p in UniqueProjects(investments) :: ProjectSeries(investments, grid, p, sine);
      var row := ChartRow(grid[i], activeProjects, series);
      project in row.values && row.values[project] == ProjectSeries(investments, grid, project, sine)[i].price
  {
    ChartValueAligned(ProjectSeries(investments, grid, project, sine), grid, i);
  }
}
