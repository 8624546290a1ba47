# Investment time-series synthesis

This project models the logic behind the investment-history chart of a venture-capital dashboard. The input is a list of
investment events `{date, amount, round, project}`. From it the chart builds:

- the distinct project names;
- a monthly grid of `YYYY-MM-DD` dates;
- one value series per project;
- the chart rows that merge those series.

The logic exists in two versions, and both are modelled:

- **`InvestmentData`** models the hook in `src/hooks/useInvestmentData.ts`.
  - The grid runs from the earliest event date to "now".
  - A project's series is 0 before its first investment.
  - After that, the series sums the amounts of the events dated at a grid date.
  - After the last investment it compounds a growth factor of at least 1.
  - Each value is rounded.
  - A chart row shows, for every active project that has a series, the point at the row's date. Failing that, it shows
    the last point at or before that date, and failing that, 0.
- **`DetailsView`** models the earlier version inside `src/components/VCDetailsView.tsx`.
  - The grid runs from the first *listed* event to the last *listed* one.
  - Every project's series starts all-null.
  - Each event then overwrites its project's series from its own grid index on, with randomly varying growth.
  - A chart row shows a cell's price, and shows null for a missing cell, a null price or a zero price.

The supporting modules are:

- **`Calendar`**: UTC calendar dates and their day numbers. It also holds the `setMonth(getMonth() + 1)` step (`AddMonth`)
  and the grid that the `while (currentDate <= end)` loops produce (`GridFrom`, `IsMonthlyGrid`).
- **`IsoDate`**: the `YYYY-MM-DD` strings. The hook compares them with `<`, `>`, `<=` and `===`, and the details view
  compares them only with `===`. The module proves that these comparisons are comparisons of the dates.
- **`Investments`**: the event record, and `[...new Set(...)]` over the project names.

The loops of the source are methods with loop invariants:

- `DateRange`, `ProjectPoints`, `ProjectTimeSeries` and `GetCombinedChartData` in `InvestmentData`;
- `MockPriceData`, `InitialiseSeries`, `FillSeries`, `FillFrom` and `CombinedChartData` in `DetailsView`.

Every loop is proved to compute a specification function. The properties the charts rely on are then proved as lemmas
about those functions.

Two inputs are parameters:

- **"Now"** (`new Date()`) is the parameter `now`, the UTC calendar date of that instant. Comparing at the date level
  is exact: a grid date's midnight is at or before the instant exactly when the grid date is at or before `now`.
- **`Math.sin` and `Math.random`** are caller-supplied functions.
  - `Math.sin(new Date(date).getTime())` is `sine(date)`. It is a deterministic function of the date, so with `now`
    fixed the hook's series are reproducible.
  - Only `random` stands for a random draw: the `k`-th event's `Math.random()` draw at grid index `i` is
    `random(k, i)`.

Seven behaviours of the code are easy to miss. The model has each of them:

- **Before the first investment**, a project's points are 0. Its series still has one point per grid date
  (`ZeroBeforeFirstInvestment`).
- **A month step** that lands on a day the month lacks rolls over into the next month: January 31 becomes March 3 in a
  common year and March 2 in a leap year. It is never clipped to the end of the month (`AddMonth`, `AddMonthDays`).
- **The grid stops** at the last step at or before "now". It does not include a step past it. When the earliest date is
  after "now" the grid is empty (`GridFromIsMonthlyGrid`).
- **Event dates are matched to grid dates by equality**: amounts are only added where an event's date *is* a grid date.
  - From a start on day 28 or earlier, the grid keeps the start's day of the month (`GridKeepsDay`). So an event on
    another day of the month is never counted. For example, with a grid on the 15th, an event on `2023-04-01` is never
    added.
  - From a start on day 29, 30 or 31, the grid moves to the overflow day of the first short month and stays there: a
    grid from 2023-01-31 runs 2023-01-31, 2023-03-03, 2023-04-03. An event on day 3 is then counted, and one on day 31
    after January is not.
  - In every case, a project all of whose events fall between grid dates shows 0 throughout
    (`OffGridEventsNeverCounted`).
- **Growth compounds on growth.** At every grid date after the last investment, the hook multiplies the running value
  by `(1 + rate)` to the power of the *whole* number of months since the last investment. The value it multiplies has
  already been grown at the earlier dates, so the growth of later months is applied again and again
  (`GrowthAfterLastInvestment`, `Accumulate`).
- **In the hook's rows**, an active project whose series has no point at a date shows its last earlier point or 0. It
  never shows a missing key (`ChartRow`).
- **In the details view**, the series show simulated values drawn with `Math.random`, so they are not deterministic.

## Model

| member | source | states |
|---|---|---|
| Calendar.AddMonth | src/hooks/useInvestmentData.ts:30 | a month step of a valid date is a valid date strictly after it |
| Calendar.AddMonthDays | src/components/VCDetailsView.tsx:60 | a month step moves forward by exactly the length of the current month: the day overflows into the next month and is never clipped |
| Calendar.DayNumberOrder | src/hooks/useInvestmentData.ts:28 | comparing timestamps (`currentDate <= endDate`) is comparing dates: earlier / equal dates have smaller / equal day numbers, both directions |
| Calendar.GridFrom | src/hooks/useInvestmentData.ts:27-31 | the dates the loop pushes are strictly increasing and none precedes the start |
| Calendar.GridFromIsMonthlyGrid | src/hooks/useInvestmentData.ts:27-31 | that grid is empty exactly when the end precedes the start; otherwise it starts at the start, each entry is one month step after the previous one, all entries are at or before the end and the next step is past it |
| Calendar.MonthlyGridUnique | src/components/VCDetailsView.tsx:53-61 | conversely, any sequence with those properties is that grid, so they characterise the loop's output |
| Calendar.GridKeepsDay | src/hooks/useInvestmentData.ts:28-31 | from a start on day 28 or earlier every grid date keeps the start's day of the month |
| Calendar.Earliest | src/hooks/useInvestmentData.ts:21-23 | `Math.min` over the dates: a member of the list at or before every entry |
| Calendar.Latest | src/hooks/useInvestmentData.ts:45-52 | the last date after the sort: a member of the list at or after every entry |
| IsoDate.Format | src/hooks/useInvestmentData.ts:29 | `toISOString().split("T")[0]` is ten characters with `-` at positions 4 and 7 |
| IsoDate.FormatOrder | src/hooks/useInvestmentData.ts:60-72 | string `<` (`StrLess`, JavaScript's lexicographic `<` on strings, used at :60, :72 and :117) on two formatted dates holds exactly when the first date is earlier, and the strings are equal exactly when the dates are |
| Investments.Projects | src/hooks/useInvestmentData.ts:13 | `investments.map(inv => inv.project)`, as at VCDetailsView.tsx:118 too: one name per event, in event order, each the event's project |
| Investments.DatesOf | src/hooks/useInvestmentData.ts:22 | `investments.map(...)` over the dates that `Math.min` reads: one date per event, in event order |
| Investments.Distinct | src/hooks/useInvestmentData.ts:13 | `[...new Set(s)]` holds exactly the elements of `s`, with no duplicates |
| Investments.DistinctOrder | src/components/VCDetailsView.tsx:117-120 | it lists them in the order of their first occurrence in `s` |
| Investments.UniqueProjects | src/hooks/useInvestmentData.ts:12-15 | every project that occurs in the events, and only those, exactly once, in first-occurrence order; empty for no events |
| InvestmentData.Round | src/hooks/useInvestmentData.ts:90 | `Math.round` gives the integer within one half below and strictly less than one half above its argument |
| InvestmentData.DateRange | src/hooks/useInvestmentData.ts:18-35 | empty without investments, otherwise the monthly grid from the earliest event date up to `now`; strictly increasing, so the final sort leaves it as it is |
| InvestmentData.ProjectEvents | src/hooks/useInvestmentData.ts:45-46 | every kept event belongs to the project and comes from the input, and every event of the project is kept |
| InvestmentData.ProjectEventsCount | src/hooks/useInvestmentData.ts:45-46 | each of the project's events is kept as many times as it occurs and no other event is kept, so identical tranches are not merged |
| InvestmentData.ProjectEventsAppend | src/hooks/useInvestmentData.ts:45-46 | the filter of a concatenation is the concatenation of the filters; with the one-event case this fixes the kept events in input order |
| InvestmentData.SumOn | src/hooks/useInvestmentData.ts:66-68 | the total invested on a date is 0 when no event is dated on it, and not negative when no amount is negative |
| InvestmentData.Pow | src/hooks/useInvestmentData.ts:84 | a power of a base of at least 1 is at least 1 |
| InvestmentData.MonthlyRate | src/hooks/useInvestmentData.ts:79-81 | the monthly rate is at least 0.005, and at most 0.0075 for sine values in [-1, 1] |
| InvestmentData.MonthsSince | src/hooks/useInvestmentData.ts:73-76 | `Math.floor` of the day difference over 30 days: the number `n` with `30 n <= difference < 30 n + 30` |
| InvestmentData.MonthsSinceNonNegative | src/hooks/useInvestmentData.ts:73-76 | after the last investment the number of whole 30-day periods is not negative |
| InvestmentData.GrowthFactor | src/hooks/useInvestmentData.ts:84 | the compounding factor is at least 1 |
| InvestmentData.PriceAtMeaning | src/hooks/useInvestmentData.ts:60-62 | the price pushed at a date: 0 before the first investment (:60-62); otherwise the accumulated value rounded to the nearest integer (:88-91); never negative when no amount is |
| InvestmentData.Trace | src/hooks/useInvestmentData.ts:58-92 | every branch pushes one point: one point per grid date, carrying that date |
| InvestmentData.ProjectSeries | src/hooks/useInvestmentData.ts:41-92 | a project's series is either empty or has one point per grid date, each point carrying its grid date |
| InvestmentData.ProjectSeriesShape | src/hooks/useInvestmentData.ts:41-92 | a project that occurs gets exactly one point per grid date in grid order; a name with no events gets an empty series |
| InvestmentData.AddAndGrow | src/hooks/useInvestmentData.ts:65-85 | the loop body at a date on or after the first investment adds that date's amounts and then compounds growth, as the accumulation function states |
| InvestmentData.ProjectPoints | src/hooks/useInvestmentData.ts:41-92 | the per-project loop with its running accumulated value pushes exactly the project's series |
| InvestmentData.ProjectTimeSeries | src/hooks/useInvestmentData.ts:38-97 | the map has a key for each unique project and holds that project's series |
| InvestmentData.AccumulatedUpToLast | src/hooks/useInvestmentData.ts:66-69 | up to the last investment date no growth applies: the accumulated value is the sum of the amounts of the events dated at one of the dates so far, so same-day tranches add up |
| InvestmentData.ValueUpToLastInvestment | src/hooks/useInvestmentData.ts:65-91 | a point at or before one of the project's events is the rounded sum of the project's amounts dated at grid dates up to it |
| InvestmentData.ZeroBeforeFirstInvestment | src/hooks/useInvestmentData.ts:60-62 | a point dated before all of the project's events is 0 |
| InvestmentData.OffGridEventsNeverCounted | src/hooks/useInvestmentData.ts:66-69 | when none of a project's event dates is a grid date, every point of its series is 0 |
| InvestmentData.GrowthAfterLastInvestment | src/hooks/useInvestmentData.ts:65-85 | at a grid date after the last investment the loop body adds nothing. For a project with events, a positive value is multiplied by that date's growth factor, which is at least 1. A value that is not positive is kept |
| InvestmentData.Accumulate | src/hooks/useInvestmentData.ts:58-85 | one run of the loop body at a date; with non-negative amounts it never lowers a non-negative accumulated value |
| InvestmentData.Accumulated | src/hooks/useInvestmentData.ts:55-85 | the accumulated value after the loop has run over the dates so far; it is not negative when no amount is negative |
| InvestmentData.TraceNonDecreasing | src/hooks/useInvestmentData.ts:58-92 | with non-negative amounts the pushed points are non-decreasing and none exceeds the last |
| InvestmentData.SeriesNonDecreasing | src/hooks/useInvestmentData.ts:72-85 | with non-negative amounts each project's series is non-decreasing |
| InvestmentData.FindIndex | src/hooks/useInvestmentData.ts:111 | `find` by date: the first point with that date, or none when no point has it |
| InvestmentData.LastAtOrBefore | src/hooks/useInvestmentData.ts:117-119 | the last point dated at or before the date, or none when there is none |
| InvestmentData.ChartValue | src/hooks/useInvestmentData.ts:110-123 | the value shown is the price of the first point at the date. With no point at the date, it is the price of the last point at or before it, and with none at or before it, 0 |
| InvestmentData.ChartRow | src/hooks/useInvestmentData.ts:104-124 | a row carries its date, and has keys for exactly the active projects that have a series, each holding that project's chart value at the date |
| InvestmentData.GetCombinedChartData | src/hooks/useInvestmentData.ts:100-128 | one row per grid date, in grid order; the active set is all unique projects when `showAll` and the selection otherwise; each value is the point at the date, else the last earlier point, else 0 |
| InvestmentData.ChartValueAligned | src/hooks/useInvestmentData.ts:111-114 | on a series with one point per grid date the row value at a grid date is the point at that index |
| InvestmentData.RowsShowSeriesPoints | src/hooks/useInvestmentData.ts:101-123 | in the row at grid index `i` every active project that occurs shows its series' point `i` |
| DetailsView.MockPriceData | src/components/VCDetailsView.tsx:46-64 | empty without investments; otherwise the monthly grid from the first listed date up to the last listed one, empty exactly when the last listed date precedes the first; strictly increasing |
| DetailsView.Multiplier | src/components/VCDetailsView.tsx:94 | for a draw in [0, 1) the step factor lies in [0.95, 1.15) |
| DetailsView.ValueAt | src/components/VCDetailsView.tsx:88-94 | the fill value at index `i`: the amount times one step factor per index passed since the event's index; with draws in [0, 1) a positive amount stays positive |
| DetailsView.NextValue | src/components/VCDetailsView.tsx:94 | one growth step takes the fill value at index `i` to the one at `i + 1` |
| DetailsView.FindCell | src/components/VCDetailsView.tsx:85 | `findIndex` by date: the first cell with that date, or none when no cell has it |
| DetailsView.ApplyEvent | src/components/VCDetailsView.tsx:84-96 | one event keeps the series' length and cell dates |
| DetailsView.Overwritten | src/components/VCDetailsView.tsx:91-92 | overwriting keeps the series' length |
| DetailsView.OverwrittenAt | src/components/VCDetailsView.tsx:91-95 | after the fill has reached index `i`, a cell from `start` to `i - 1` holds its rounded fill value and every other cell is unchanged |
| DetailsView.OverwrittenDates | src/components/VCDetailsView.tsx:92 | overwriting a price keeps every cell's date |
| DetailsView.EmptySeries | src/components/VCDetailsView.tsx:75-78 | one null cell per grid date, carrying that date |
| DetailsView.InitialSeries | src/components/VCDetailsView.tsx:73-80 | after initialisation each project that occurs, and only those, has one all-null series of grid length |
| DetailsView.InitialiseSeries | src/components/VCDetailsView.tsx:72-80 | the initialisation loop builds that map; a later event of a project does not re-initialise its series |
| DetailsView.Filled | src/components/VCDetailsView.tsx:83-97 | processing events keeps the set of projects |
| DetailsView.FilledShape | src/components/VCDetailsView.tsx:83-97 | processing events keeps every series' length and cell dates |
| DetailsView.DetailsSeries | src/components/VCDetailsView.tsx:67-100 | empty without investments; otherwise one series per project that occurs, of grid length, carrying the grid dates |
| DetailsView.ApplyInvestment | src/components/VCDetailsView.tsx:84-96 | the per-event step computes the effect of the event |
| DetailsView.FillFrom | src/components/VCDetailsView.tsx:88-95 | the fill loop overwrites every cell from the event's index to the end |
| DetailsView.FillStep | src/components/VCDetailsView.tsx:92-94 | one iteration writes the rounded current value and advances to the next one |
| DetailsView.FillSeries | src/components/VCDetailsView.tsx:83-97 | the event loop processes every event in list order |
| DetailsView.ProjectTimeSeries | src/components/VCDetailsView.tsx:67-100 | the initialisation loop then the event loop produce the specified series map |
| DetailsView.LastWriter | src/components/VCDetailsView.tsx:83-97 | the last of the first `n` events that writes a given cell, or none when no event writes it |
| DetailsView.ProjectFill | src/components/VCDetailsView.tsx:83-96 | a project's series evolves by its own events only, keeping its length and dates |
| DetailsView.FilledProject | src/components/VCDetailsView.tsx:84 | each project's series in the shared map is the one its own events produce: events of other projects do not touch it |
| DetailsView.ProjectFillAt | src/components/VCDetailsView.tsx:83-96 | starting from nulls, a cell after `n` events holds the value its last writer put there, and null when nothing wrote it |
| DetailsView.FinalPriceStep | src/components/VCDetailsView.tsx:88-92 | an event that writes a cell replaces the cell's final value, and one that does not leaves it |
| DetailsView.LastWriterWins | src/components/VCDetailsView.tsx:67-100 | every cell of the result holds its last writer's rounded fill value, or null when no event wrote it: events overwrite, they do not add |
| DetailsView.ApplyEventAt | src/components/VCDetailsView.tsx:85-95 | on a grid-aligned series one event sets each cell from its grid index on to the fill value and leaves the rest |
| DetailsView.EventEffect | src/components/VCDetailsView.tsx:83-96 | one event leaves other projects unchanged and leaves everything unchanged when its date is on no grid date; otherwise it leaves the cells before its index, sets the cell at its index to `round(amount)` and every later one to the fill value, whatever earlier events wrote |
| DetailsView.EventOnSeries | src/components/VCDetailsView.tsx:85-95 | the same effect on one grid-aligned series |
| DetailsView.NullBeforeFirstWrite | src/components/VCDetailsView.tsx:73-91 | a cell before every grid index at which one of the project's events is dated stays null |
| DetailsView.RowValue | src/components/VCDetailsView.tsx:109-110 | null and 0 are both shown as null. The value is non-null exactly when the cell at the date has a non-zero price, and then it is that cell's price |
| DetailsView.DetailRowAt | src/components/VCDetailsView.tsx:105-111 | a row carries its date and one key for every project of the series map, holding that project's shown value at the date |
| DetailsView.CombinedChartData | src/components/VCDetailsView.tsx:103-115 | one row per grid date, in grid order, each the row at that date |
| DetailsView.RowsShowCells | src/components/VCDetailsView.tsx:104-111 | on the grid the series were built over, the row at index `i` shows every project's cell `i`, with zero shown as null |

## Left out

- **Floating-point arithmetic.** Amounts and values are exact reals. `Math.round` is `floor(x + 1/2)`. IEEE rounding,
  overflow and `NaN` are not modelled.
- `Math.sin` and `Math.random` are caller-supplied functions (`sine`, `random`). Only properties that hold for every
  choice of them are proved.
- DetailsView.Multiplier: bounds the growth multiplier only for draws in [0, 1), the range of `Math.random`; other draws
  are allowed but not bounded.
- The wall clock `new Date()` is the parameter `now`.
- **Time zones.** `setMonth` runs in local time and `toISOString` in UTC. All dates are taken as UTC calendar dates.
- **Event dates.** They are assumed to be valid `YYYY-MM-DD` dates (`DatesValid`). Other strings are out of scope:
  - unparsable dates, where `new Date` gives `NaN`;
  - full ISO timestamps, which `src/hooks/useVCData.ts` produces and which never equal a grid date.
- IsoDate.FormatOrder: covers years 0 to 9999 only, because later years need more than four digits. Their string order
  is not modelled.
- **The per-project sort** is not modelled as a sort. Its order matters only for the first and last dates, which the
  model takes as the project's earliest and latest dates (`Calendar.Earliest`, `Calendar.Latest`). The per-date sum at
  `src/hooks/useInvestmentData.ts:66-68` runs over the sorted list; the model sums the same events in input order
  (`SumOn` over `ProjectEvents`), which gives the same exact sum.
- **`dates.sort()`** in the hook is not modelled as a sort. The loop's output is proved strictly increasing, so the sort
  leaves it as it is.
- **Arrays and objects as values.** JavaScript arrays and the series dictionaries are Dafny values (`seq`, `map`), so
  aliasing between them is not modelled.
  - In the details view, `projectSeries[i].price = …` mutates an object shared with the map. The model writes the
    updated series back into the map, which has the same effect.
- **Property-name quirks.** Object keys that collide with inherited properties (`constructor`, `__proto__`) are not
  modelled. Neither is a project named `date`, which would overwrite a row's `date` key.
- **`useMemo`, React state, the JSX and `console.log`** are caching, UI or logging with no behaviour to verify.
- **The rest of the repository** is not part of this model:
  - `src/hooks/useVCData.ts`, which fetches, reshapes and formats AUM;
  - `src/lib/cryptorank.ts`, which uses `localStorage` and HTTP;
  - the UI components, which are presentation only;
  - `src/pages/Index.tsx`, a mock page with a search filter.
