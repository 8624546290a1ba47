/** The earlier version of the pipeline, inside the VC details dialog: a monthly
    grid from the first to the last listed event, one series per project that
    starts all-null and that each event overwrites from its own grid index on
    with randomly varying growth, and rows that merge every series. */
module DetailsView {
  import opened Calendar
  import opened Investments
  import InvestmentData

  /** One cell of a project's series, `{ date, price }`; `None` is `null`. */
  datatype Cell = Cell(date: Date, price: Option<int>)

  /** One merged row: its `date` and one entry per project, `None` being `null`. */
  datatype DetailRow = DetailRow(date: Date, values: map<string, Option<int>>)

  // ---------------------------------------------------------------------------
  // The date grid
  // ---------------------------------------------------------------------------

  /** `mockPriceData`: empty without investments, otherwise the monthly grid from
      the date of the first listed event while at or before the date of the last
      listed one; so it is empty when the last listed date precedes the first. */
  method MockPriceData(investments: seq<Investment>) returns (priceData: seq<Date>)
    requires DatesValid(investments)
    ensures investments == [] ==> priceData == []
    ensures investments != [] ==>
      priceData == GridFrom(investments[0].date, investments[|investments| - 1].date)
    ensures investments != [] ==>
      (priceData == [] <==> Before(investments[|investments| - 1].date, investments[0].date))
    ensures StrictlyIncreasing(priceData)
  {
    if |investments| == 0 {
      return [];
    }
    var startDate := investments[0].date;
    var endDate := investments[|investments| - 1].date;
    priceData := [];
    var currentDate := startDate;
    while AtOrBefore(currentDate, endDate)
      invariant Valid(currentDate)
      invariant priceData + GridFrom(currentDate, endDate) == GridFrom(startDate, endDate)
      decreases DayNumber(endDate) - DayNumber(currentDate)
    {
      DayNumberOrder(currentDate, endDate);
      GridFromStep(priceData, currentDate, endDate);
      var nextDate := AddMonth(currentDate);
      DayNumberOrder(currentDate, nextDate);
      priceData := priceData + [currentDate];
      currentDate := nextDate;
    }
    GridFromPast(currentDate, endDate);
    assert priceData == GridFrom(startDate, endDate);
    GridFromIsMonthlyGrid(startDate, endDate);
  }

  // ---------------------------------------------------------------------------
  // Series
  // ---------------------------------------------------------------------------

  /** `1 + (Math.random() * 0.20 - 0.05)` for the draw `r`. */
  function Multiplier(r: real): (f: real)
    ensures 0.0 <= r < 1.0 ==> 0.95 <= f < 1.15
  {
    1.0 + (r * 0.20 - 0.05)
  }

  /** `currentValue` when the fill of event `k`, begun at grid index `start` with
      the event's amount, reaches index `i`: one multiplier per index passed, the
      draw at index `m` of event `k` being `random(k, m)`. With draws in
      `[0, 1)` a positive amount stays positive. */
  function ValueAt(amount: real, k: nat, start: nat, i: nat, random: (nat, nat) -> real): (v: real)
    ensures amount > 0.0 && (forall m :: start <= m < i ==> 0.0 <= random(k, m) < 1.0) ==> v > 0.0
    decreases i
  {
    if i <= start then amount
    else
      var previous := ValueAt(amount, k, start, i - 1, random);
      var f := Multiplier(random(k, i - 1));
      assert amount > 0.0 && (forall m :: start <= m < i ==> 0.0 <= random(k, m) < 1.0) ==> previous * f > 0.0;
      previous * f
  }

  /** `currentValue * (1 + (Math.random() * 0.20 - 0.05))` at grid index `i`: the
      fill loop's step, which advances `ValueAt` by one index. */
  method NextValue(currentValue: real, ghost amount: real, k: nat, ghost start: nat, i: nat, random: (nat, nat) -> real)
    returns (next: real)
    requires start <= i && currentValue == ValueAt(amount, k, start, i, random)
    ensures next == ValueAt(amount, k, start, i + 1, random)
  {
    next := currentValue * (1.0 + (random(k, i) * 0.20 - 0.05));
  }

  /** `series.findIndex(d => d.date === date)`, as an index. */
  function FindCell(s: seq<Cell>, date: Date): (r: Option<nat>)
    ensures r.Some? ==> (r.value < |s| && s[r.value].date == date
                         && forall j :: 0 <= j < r.value ==> s[j].date != date)
    ensures r.None? ==> forall j :: 0 <= j < |s| ==> s[j].date != date
  {
    if s == [] then None
    else if s[0].date == date then Some(0)
    else match FindCell(s[1..], date)
      case None => None
      case Some(k) => Some(k + 1)
  }

  /** The series after event `inv`, the `k`-th listed, has been processed: from the
      index of its date on, every cell is overwritten with the rounded value of
      the fill; an event dated at no cell changes nothing. */
  function ApplyEvent(s: seq<Cell>, inv: Investment, k: nat, random: (nat, nat) -> real): (r: seq<Cell>)
    ensures |r| == |s|
    ensures forall j :: 0 <= j < |s| ==> r[j].date == s[j].date
  {
    match FindCell(s, inv.date)
    case None => s
    case Some(start) =>
      OverwrittenDates(s, inv.amount, k, start, |s|, random);
      Overwritten(s, inv.amount, k, start, |s|, random)
  }

  /** `s` with the cells at indices `start` to `i - 1` overwritten, in that
      order, by the rounded fill values of an event of `amount`, the `k`-th listed. */
  function Overwritten(s: seq<Cell>, amount: real, k: nat, start: nat, i: nat, random: (nat, nat) -> real)
    : (r: seq<Cell>)
    requires i <= |s|
    ensures |r| == |s|
    decreases i
  {
    if i <= start then s
    else
      Overwritten(s, amount, k, start, i - 1, random)[i - 1 :=
        s[i - 1].(price := Some(InvestmentData.Round(ValueAt(amount, k, start, i - 1, random))))]
  }

  /** The cell at index `j` once the cells from `start` to `i - 1` are overwritten. */
  lemma {:induction false} OverwrittenAt(s: seq<Cell>, amount: real, k: nat, start: nat, i: nat,
                                         random: (nat, nat) -> real, j: nat)
    requires i <= |s| && j < |s|
    ensures Overwritten(s, amount, k, start, i, random)[j] ==
      if start <= j < i then s[j].(price := Some(InvestmentData.Round(ValueAt(amount, k, start, j, random))))
      else s[j]
    decreases i
  {
    if i > start {
      OverwrittenAt(s, amount, k, start, i - 1, random, j);
    }
  }

  /** Overwriting keeps every cell's date. */
  lemma OverwrittenDates(s: seq<Cell>, amount: real, k: nat, start: nat, i: nat, random: (nat, nat) -> real)
    requires i <= |s|
    ensures forall j :: 0 <= j < |s| ==> Overwritten(s, amount, k, start, i, random)[j].date == s[j].date
  {
    forall j | 0 <= j < |s| ensures Overwritten(s, amount, k, start, i, random)[j].date == s[j].date {
      OverwrittenAt(s, amount, k, start, i, random, j);
    }
  }

  /** `mockPriceData.map(pd => ({ date: pd.date, price: null }))` */
  function EmptySeries(grid: seq<Date>): (s: seq<Cell>)
    ensures |s| == |grid|
    ensures forall j :: 0 <= j < |s| ==> s[j] == Cell(grid[j], None)
  {
    seq(|grid|, j requires 0 <= j < |grid| => Cell(grid[j], None))
  }

  /** The projects that occur in the events. */
  function ProjectSet(investments: seq<Investment>): set<string> {
    set k | 0 <= k < |investments| :: investments[k].project
  }

  /** The series map after the initialisation loop: an all-null series of grid
      length for each project that occurs. */
  function InitialSeries(investments: seq<Investment>, grid: seq<Date>): (m: map<string, seq<Cell>>)
    ensures m.Keys == ProjectSet(investments)
    ensures forall p :: p in m ==> |m[p]| == |grid| && forall j :: 0 <= j < |grid| ==> m[p][j] == Cell(grid[j], None)
  {
    map p | p in ProjectSet(investments) :: EmptySeries(grid)
  }

  /** The series map after the first `n` events have been processed. */
  function Filled(investments: seq<Investment>, init: map<string, seq<Cell>>, n: nat, random: (nat, nat) -> real)
    : (m: map<string, seq<Cell>>)
    requires n <= |investments|
    requires forall k :: 0 <= k < n ==> investments[k].project in init
    ensures m.Keys == init.Keys
  {
    if n == 0 then init
    else
      var prev := Filled(investments, init, n - 1, random);
      var inv := investments[n - 1];
      prev[inv.project := ApplyEvent(prev[inv.project], inv, n - 1, random)]
  }

  /** Processing events keeps every series' length and cell dates. */
  lemma FilledShape(investments: seq<Investment>, init: map<string, seq<Cell>>, n: nat,
                                       random: (nat, nat) -> real)
    requires n <= |investments|
    requires forall k :: 0 <= k < n ==> investments[k].project in init
    ensures var m := Filled(investments, init, n, random);
      && (forall p :: p in m ==> |m[p]| == |init[p]|)
      && (forall p, j :: p in m && 0 <= j < |m[p]| ==> m[p][j].date == init[p][j].date)
  {
    forall p | p in init
      ensures Filled(investments, init, n, random)[p] == ProjectFill(investments, init[p], n, p, random)
    {
      FilledProject(investments, init, random, n, p);
    }
  }

  /** `projectTimeSeries`: empty without investments; otherwise the initial series
      with every event processed in list order. */
  function DetailsSeries(investments: seq<Investment>, grid: seq<Date>, random: (nat, nat) -> real)
    : (m: map<string, seq<Cell>>)
    ensures m.Keys == ProjectSet(investments)
    ensures forall p :: p in m ==> |m[p]| == |grid|
    ensures forall p, j :: p in m && 0 <= j < |m[p]| ==> m[p][j].date == grid[j]
  {
    if investments == [] then map[]
    else
      FilledShape(investments, InitialSeries(investments, grid), |investments|, random);
      Filled(investments, InitialSeries(investments, grid), |investments|, random)
  }

  /** The initialisation loop: a project gets its series at its first event, and
      a later event of the same project leaves it as it is. */
  method InitialiseSeries(investments: seq<Investment>, mockPriceData: seq<Date>)
    returns (series: map<string, seq<Cell>>)
    ensures series == InitialSeries(investments, mockPriceData)
  {
    series := map[];
    var k := 0;
    while k < |investments|
      invariant 0 <= k <= |investments|
      invariant series.Keys == ProjectSet(investments[..k])
      invariant forall p :: p in series ==> series[p] == EmptySeries(mockPriceData)
    {
      var inv := investments[k];
      if inv.project !in series {
        series := series[inv.project := EmptySeries(mockPriceData)];
      }
      assert investments[..k + 1] == investments[..k] + [inv];
      assert ProjectSet(investments[..k + 1]) == ProjectSet(investments[..k]) + {inv.project} by {
        assert forall j :: 0 <= j < k ==> investments[..k + 1][j] == investments[..k][j];
      }
      k := k + 1;
    }
    assert investments[..k] == investments;
  }

  /** The fill loop of one event with its series `projectSeries`. */
  method ApplyInvestment(projectSeries: seq<Cell>, inv: Investment, k: nat, random: (nat, nat) -> real)
    returns (s: seq<Cell>)
    ensures s == ApplyEvent(projectSeries, inv, k, random)
  {
    s := projectSeries;
    var startIndex := FindCell(s, inv.date);
    if startIndex.Some? {
      s := FillFrom(projectSeries, inv.amount, k, startIndex.value, random);
    }
  }

  /** The loop from the event's grid index `start` to the end of the series. */
  method FillFrom(projectSeries: seq<Cell>, amount: real, k: nat, start: nat, random: (nat, nat) -> real)
    returns (s: seq<Cell>)
    requires start <= |projectSeries|
    ensures s == Overwritten(projectSeries, amount, k, start, |projectSeries|, random)
  {
    s := projectSeries;
    var currentValue := amount;
    var i := start;
    while i < |projectSeries|
      invariant start <= i <= |projectSeries|
      invariant s == Overwritten(projectSeries, amount, k, start, i, random)
      invariant currentValue == ValueAt(amount, k, start, i, random)
    {
      s, currentValue := FillStep(s, currentValue, projectSeries, amount, k, start, i, random);
      i := i + 1;
    }
  }

  /** One iteration of the fill loop: write the rounded current value at index
      `i`, then draw the next value. */
  method FillStep(s: seq<Cell>, currentValue: real, ghost projectSeries: seq<Cell>, ghost amount: real,
                  k: nat, ghost start: nat, i: nat, random: (nat, nat) -> real)
    returns (s': seq<Cell>, next: real)
    requires start <= i < |projectSeries|
    requires s == Overwritten(projectSeries, amount, k, start, i, random)
    requires currentValue == ValueAt(amount, k, start, i, random)
    ensures s' == Overwritten(projectSeries, amount, k, start, i + 1, random)
    ensures next == ValueAt(amount, k, start, i + 1, random)
  {
    OverwrittenAt(projectSeries, amount, k, start, i, random, i);
    s' := s[i := s[i].(price := Some(InvestmentData.Round(currentValue)))];
    next := NextValue(currentValue, amount, k, start, i, random);
  }

  /** The loop over the events, each overwriting its project's series. */
  method FillSeries(investments: seq<Investment>, init: map<string, seq<Cell>>, random: (nat, nat) -> real)
    returns (series: map<string, seq<Cell>>)
    requires forall k :: 0 <= k < |investments| ==> investments[k].project in init
    ensures series == Filled(investments, init, |investments|, random)
  {
    series := init;
    for k := 0 to |investments|
      invariant series == Filled(investments, init, k, random)
    {
      var inv := investments[k];
      var projectSeries := series[inv.project];
      var updated := ApplyInvestment(projectSeries, inv, k, random);
      series := series[inv.project := updated];
    }
  }

  /** `projectTimeSeries`: the initialisation loop, then the fill loop. */
  method ProjectTimeSeries(investments: seq<Investment>, mockPriceData: seq<Date>, random: (nat, nat) -> real)
    returns (series: map<string, seq<Cell>>)
    ensures series == DetailsSeries(investments, mockPriceData, random)
  {
    if |investments| == 0 {
      return map[];
    }
    var init := InitialiseSeries(investments, mockPriceData);
    series := FillSeries(investments, init, random);
  }

  // ---------------------------------------------------------------------------
  // Properties of the series
  // ---------------------------------------------------------------------------

  /** The grid index of the first grid date equal to `d`. */
  function GridIndex(grid: seq<Date>, d: Date): (r: Option<nat>)
    ensures r.Some? ==> (r.value < |grid| && grid[r.value] == d
                         && forall j :: 0 <= j < r.value ==> grid[j] != d)
    ensures r.None? ==> forall j :: 0 <= j < |grid| ==> grid[j] != d
  {
    if grid == [] then None
    else if grid[0] == d then Some(0)
    else match GridIndex(grid[1..], d)
      case None => None
      case Some(k) => Some(k + 1)
  }

  /** A series whose cells carry the grid dates finds a date where the grid has it. */
  lemma FindCellAligned(s: seq<Cell>, grid: seq<Date>, d: Date)
    requires |s| == |grid| && forall j :: 0 <= j < |s| ==> s[j].date == grid[j]
    ensures FindCell(s, d) == GridIndex(grid, d)
  {
    match FindCell(s, d)
    case None =>
    case Some(k) =>
      assert grid[k] == d;
  }

  /** Event `inv` writes the cell of project `p` at grid index `j`. */
  predicate Writes(inv: Investment, grid: seq<Date>, p: string, j: nat) {
    inv.project == p && GridIndex(grid, inv.date).Some? && GridIndex(grid, inv.date).value <= j
  }

  /** The last of the first `n` events that writes the cell of `p` at index `j`. */
  function LastWriter(investments: seq<Investment>, grid: seq<Date>, n: nat, p: string, j: nat): (r: Option<nat>)
    requires n <= |investments|
    ensures r.Some? ==> (r.value < n && Writes(investments[r.value], grid, p, j)
                         && forall k :: r.value < k < n ==> !Writes(investments[k], grid, p, j))
    ensures r.None? ==> forall k :: 0 <= k < n ==> !Writes(investments[k], grid, p, j)
  {
    if n == 0 then None
    else if Writes(investments[n - 1], grid, p, j) then Some(n - 1)
    else LastWriter(investments, grid, n - 1, p, j)
  }

  /** What the cell of `p` at index `j` holds after the first `n` events: null if
      no event has written it, otherwise the fill value of its last writer. */
  function FinalPrice(investments: seq<Investment>, grid: seq<Date>, n: nat, p: string, j: nat, random: (nat, nat) -> real)
    : Option<int>
    requires n <= |investments|
  {
    match LastWriter(investments, grid, n, p, j)
    case None => None
    case Some(k) =>
      Some(InvestmentData.Round(ValueAt(investments[k].amount, k, GridIndex(grid, investments[k].date).value, j, random)))
  }

  /** The series of project `p` after the first `n` events, of which only the
      events of `p` act on it. */
  function ProjectFill(investments: seq<Investment>, s0: seq<Cell>, n: nat, p: string, random: (nat, nat) -> real)
    : (s: seq<Cell>)
    requires n <= |investments|
    ensures |s| == |s0|
    ensures forall i :: 0 <= i < |s| ==> s[i].date == s0[i].date
  {
    if n == 0 then s0
    else
      var prev := ProjectFill(investments, s0, n - 1, p, random);
      if investments[n - 1].project == p then ApplyEvent(prev, investments[n - 1], n - 1, random) else prev
  }

  /** Each project's series in the map evolves by its own events alone. */
  lemma {:induction false} FilledProject(investments: seq<Investment>, init: map<string, seq<Cell>>,
                                         random: (nat, nat) -> real, n: nat, p: string)
    requires n <= |investments|
    requires forall k :: 0 <= k < n ==> investments[k].project in init
    requires p in init
    ensures Filled(investments, init, n, random)[p] == ProjectFill(investments, init[p], n, p, random)
  {
    if n > 0 {
      FilledProject(investments, init, random, n - 1, p);
    }
  }

  lemma {:induction false} ProjectFillAt(investments: seq<Investment>, grid: seq<Date>, random: (nat, nat) -> real,
                                         n: nat, p: string, j: nat)
    requires n <= |investments| && j < |grid|
    ensures ProjectFill(investments, EmptySeries(grid), n, p, random)[j]
         == Cell(grid[j], FinalPrice(investments, grid, n, p, j, random))
  {
    if n > 0 {
      ProjectFillAt(investments, grid, random, n - 1, p, j);
      FinalPriceStep(investments, grid, n, p, j, random);
      var inv := investments[n - 1];
      if inv.project == p {
        var prev := ProjectFill(investments, EmptySeries(grid), n - 1, p, random);
        ApplyEventAt(prev, grid, inv, n - 1, random, j);
      }
    }
  }

  lemma FinalPriceStep(investments: seq<Investment>, grid: seq<Date>, n: nat, p: string, j: nat, random: (nat, nat) -> real)
    requires 0 < n <= |investments|
    ensures var inv := investments[n - 1];
      FinalPrice(investments, grid, n, p, j, random)
      == if Writes(inv, grid, p, j)
         then Some(InvestmentData.Round(ValueAt(inv.amount, n - 1, GridIndex(grid, inv.date).value, j, random)))
         else FinalPrice(investments, grid, n - 1, p, j, random)
  {
  }

  /** The last writer wins: every cell holds the value its last writer put there,
      whatever earlier events wrote, and null when no event wrote it. */
  lemma LastWriterWins(investments: seq<Investment>, grid: seq<Date>, random: (nat, nat) -> real, p: string, j: nat)
    requires p in ProjectSet(investments) && j < |grid|
    ensures DetailsSeries(investments, grid, random)[p][j]
         == Cell(grid[j], FinalPrice(investments, grid, |investments|, p, j, random))
  {
    var init := InitialSeries(investments, grid);
    assert forall k :: 0 <= k < |investments| ==> investments[k].project in init;
    FilledProject(investments, init, random, |investments|, p);
    ProjectFillAt(investments, grid, random, |investments|, p, j);
  }

  /** The cell at index `j` after an event, on a series carrying the grid dates. */
  lemma ApplyEventAt(s: seq<Cell>, grid: seq<Date>, inv: Investment, k: nat, random: (nat, nat) -> real, j: nat)
    requires |s| == |grid| && forall m :: 0 <= m < |s| ==> s[m].date == grid[m]
    requires j < |s|
    ensures ApplyEvent(s, inv, k, random)[j] ==
      if GridIndex(grid, inv.date).Some? && GridIndex(grid, inv.date).value <= j
      then s[j].(price := Some(InvestmentData.Round(ValueAt(inv.amount, k, GridIndex(grid, inv.date).value, j, random))))
      else s[j]
  {
    FindCellAligned(s, grid, inv.date);
    if GridIndex(grid, inv.date).Some? {
      OverwrittenAt(s, inv.amount, k, GridIndex(grid, inv.date).value, |s|, random, j);
    }
  }

  /** Processing one event changes only its own project's series, and there only
      the cells from the grid index of its date on: the cell at that index is set
      to its rounded amount and each later one to the fill value, independently of
      what the earlier events wrote. An event dated at no grid date changes
      nothing. */
  lemma EventEffect(investments: seq<Investment>, grid: seq<Date>, random: (nat, nat) -> real, n: nat)
    requires n < |investments|
    ensures var init := InitialSeries(investments, grid);
      var before := Filled(investments, init, n, random);
      var after := Filled(investments, init, n + 1, random);
      var inv := investments[n];
      && inv.project in before && inv.project in after
      && |before[inv.project]| == |after[inv.project]| == |grid|
      && (forall q :: q in before && q != inv.project ==> q in after && after[q] == before[q])
      && (GridIndex(grid, inv.date).None? ==> after == before)
      && (GridIndex(grid, inv.date).Some? ==>
            var t := GridIndex(grid, inv.date).value;
            && (forall j :: 0 <= j < t ==> after[inv.project][j] == before[inv.project][j])
            && after[inv.project][t] == Cell(grid[t], Some(InvestmentData.Round(inv.amount)))
            && (forall j :: t <= j < |grid| ==>
                  after[inv.project][j] == Cell(grid[j], Some(InvestmentData.Round(ValueAt(inv.amount, n, t, j, random))))))
  {
    var init := InitialSeries(investments, grid);
    assert forall k :: 0 <= k < |investments| ==> investments[k].project in init;
    FilledShape(investments, init, n, random);
    var before := Filled(investments, init, n, random);
    var inv := investments[n];
    assert inv.project in ProjectSet(investments);
    var r := ApplyEvent(before[inv.project], inv, n, random);
    assert Filled(investments, init, n + 1, random) == before[inv.project := r];
    EventOnSeries(before[inv.project], grid, inv, n, random);
    if GridIndex(grid, inv.date).None? {
      assert before[inv.project := r] == before;
    }
  }

  /** What one event does to a series carrying the grid dates. */
  lemma EventOnSeries(s: seq<Cell>, grid: seq<Date>, inv: Investment, k: nat, random: (nat, nat) -> real)
    requires |s| == |grid| && forall m :: 0 <= m < |s| ==> s[m].date == grid[m]
    ensures var r := ApplyEvent(s, inv, k, random);
      && (GridIndex(grid, inv.date).None? ==> r == s)
      && (GridIndex(grid, inv.date).Some? ==>
            var t := GridIndex(grid, inv.date).value;
            && (forall j :: 0 <= j < t ==> r[j] == s[j])
            && r[t] == Cell(grid[t], Some(InvestmentData.Round(inv.amount)))
            && (forall j :: t <= j < |grid| ==>
                  r[j] == Cell(grid[j], Some(InvestmentData.Round(ValueAt(inv.amount, k, t, j, random))))))
  {
    forall j | 0 <= j < |s| ensures ApplyEvent(s, inv, k, random)[j] ==
      if GridIndex(grid, inv.date).Some? && GridIndex(grid, inv.date).value <= j
      then s[j].(price := Some(InvestmentData.Round(ValueAt(inv.amount, k, GridIndex(grid, inv.date).value, j, random))))
      else s[j]
    {
      ApplyEventAt(s, grid, inv, k, random, j);
    }
    FindCellAligned(s, grid, inv.date);
  }

  /** Before the first event of `p` that is dated at a grid date up to `j`, the
      cell of `p` at `j` is null. */
  lemma NullBeforeFirstWrite(investments: seq<Investment>, grid: seq<Date>, random: (nat, nat) -> real, p: string, j: nat)
    requires p in ProjectSet(investments) && j < |grid|
    requires forall k :: 0 <= k < |investments| && investments[k].project == p ==>
      forall t :: 0 <= t <= j ==> grid[t] != investments[k].date
    ensures DetailsSeries(investments, grid, random)[p][j] == Cell(grid[j], None)
  {
    LastWriterWins(investments, grid, random, p, j);
  }

  // ---------------------------------------------------------------------------
  // Chart rows
  // ---------------------------------------------------------------------------

  /** `series.find(s => s.date === date)?.price || null`: the price of the cell at
      `date`; a missing cell, a null price and a zero price all give null. */
  function RowValue(s: seq<Cell>, date: Date): (v: Option<int>)
    ensures v.Some? ==> v.value != 0
    ensures v.Some? <==> (FindCell(s, date).Some? && s[FindCell(s, date).value].price.Some?
                          && s[FindCell(s, date).value].price.value != 0)
    ensures v.Some? ==> v == s[FindCell(s, date).value].price
  {
    match FindCell(s, date)
    case None => None
    case Some(k) => if s[k].price.Some? && s[k].price.value != 0 then s[k].price else None
  }

  /** The row at `date`: one entry per project of the series map. */
  function DetailRowAt(date: Date, series: map<string, seq<Cell>>): (r: DetailRow)
    ensures r.date == date
    ensures r.values.Keys == series.Keys
    ensures forall p :: p in r.values ==> r.values[p] == RowValue(series[p], date)
  {
    DetailRow(date, map p | p in series :: RowValue(series[p], date))
  }

  /** `combinedChartData`: one row per grid date, in grid order. */
  method CombinedChartData(mockPriceData: seq<Date>, projectTimeSeries: map<string, seq<Cell>>)
    returns (rows: seq<DetailRow>)
    ensures |rows| == |mockPriceData|
    ensures forall i :: 0 <= i < |rows| ==> rows[i] == DetailRowAt(mockPriceData[i], projectTimeSeries)
  {
    rows := [];
    for i := 0 to |mockPriceData|
      invariant |rows| == i
      invariant forall m :: 0 <= m < i ==> rows[m] == DetailRowAt(mockPriceData[m], projectTimeSeries)
    {
      var date := mockPriceData[i];
      var dataPoint: map<string, Option<int>> := map[];
      var remaining := projectTimeSeries.Keys;
      while remaining != {}
        invariant remaining <= projectTimeSeries.Keys
        invariant dataPoint.Keys == projectTimeSeries.Keys - remaining
        invariant forall p :: p in dataPoint ==> dataPoint[p] == RowValue(projectTimeSeries[p], date)
        decreases remaining
      {
        var project :| project in remaining;
        var series := projectTimeSeries[project];
        var matchingPoint := FindCell(series, date);
        if matchingPoint.Some? && series[matchingPoint.value].price.Some? && series[matchingPoint.value].price.value != 0 {
          dataPoint := dataPoint[project := series[matchingPoint.value].price];
        } else {
          dataPoint := dataPoint[project := None];
        }
        remaining := remaining - {project};
      }
      rows := rows + [DetailRow(date, dataPoint)];
    }
  }

  /** On the grid the series were built over, the row at grid index `i` shows,
      for every project, its cell at `i`, with zero shown as null. */
  lemma RowsShowCells(investments: seq<Investment>, grid: seq<Date>, random: (nat, nat) -> real, i: nat, p: string)
    requires StrictlyIncreasing(grid) && i < |grid|
    requires p in ProjectSet(investments)
    ensures var series := DetailsSeries(investments, grid, random);
      var cell := series[p][i].price;
      DetailRowAt(grid[i], series).values[p] == if cell.Some? && cell.value != 0 then cell else None
  {
    var series := DetailsSeries(investments, grid, random);
    FindCellAligned(series[p], grid, grid[i]);
    assert GridIndex(grid, grid[i]) == Some(i) by {
      var k := GridIndex(grid, grid[i]).value;
      assert !(k < i) && !(i < k);
    }
  }
}
