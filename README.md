# Dashboard-APAC derived views, in Dafny

The dashboard shows a data-extraction pipeline across two Indian states,
Telangana and Karnataka. It is drawn from three literal tables:
- one metrics row per state;
- a timeline of projects seen per sampled day, per state and for `all`;
- a per-state breakdown of processing time.

What the page shows depends on a selection:
- a state (`all`, `telangana`, `karnataka`);
- a date range (`all`, `custom`, `last7`, `last30`);
- two custom dates.

This project models every value the component derives from that selection, and proves what those values are:
- **Date filter** (`getFilteredTimelineData`): keeps the timeline points whose day lies in an inclusive window.
  - `last7` and `last30` count back from the fixed day 2025-04-24.
  - `custom` uses the two dates.
  - `all`, or a range the code does not know, returns the timeline unchanged.
- **State rows** (`filteredStateData`): every row for `all`; otherwise the rows whose lower-cased name is the selection.
- **Lookups**: the timeline and the performance table of the selected state, falling back to the `all` series.
- **Coverage view**: two series per data source for `all`, one value per source for a single state.
- **Totals**: plain sums over the selected rows.
  - While a date range is active and the filtered timeline still holds projects, they are scaled instead: each plain sum is multiplied by filtered ÷ full timeline projects, and that product is rounded half up.
  - The average processing time is never scaled.
- **Alerts**: the data-quality panel and its three warnings.

The selection is an immutable value (`DateFilter.Selection`), and every view is a function of it and of the literal data (`Fixtures.Data`).

Representation:
- Days are numbers of days since 1970-01-01. This is the instant `new Date('YYYY-MM-DD')` denotes, divided by one day.
- A custom date that does not parse is `None`.
- Percentages are integer tenths (93.7 is 937).
- Times with two decimals are hundredths of a second (248.47 is 24847).

Modules:
- `Wrappers`: the `Option` type.
- `Seqs`: subsequences, and the array `filter` that both filters use.
- `Dates`: civil day numbers.
- `Metrics`: the entities.
- `Fixtures`: the literal data.
- `DateFilter`: the selection and the timeline filter.
- `Views`: rows, lookups, coverage and alerts.
- `Totals`: the totals.
- `Scenarios`: what particular selections show.

Behaviour worth knowing, as the code has it:
- A state name outside the three the page offers is not treated as `all`.
  - It matches no metrics row, so its counts are 0.
  - It is shown the `all` timeline and performance table.
  - It gets Karnataka's coverage figures, from the `else` branch.
  - Its alert panel's heading shows no state name, and no warning appears (`Scenarios.UnknownStateView`).
- The filtered timeline is a contiguous run of the input only because the timelines are in date order (`DateFilter.SortedTimelineFiltersToSlice` assumes this).
- The ratio scales the count totals and the total processing time, but not the average processing time.
- A date range whose points hold no projects shows the "All Time" totals, not zeros. This includes an inverted or unparsable custom range.

## Model

| member | source | states |
|---|---|---|
| `Seqs.Filter` | dashboard-app/src/Dashboard.jsx:116-119 | `filter` returns an order-preserving subsequence of its input. Each element that passes the test appears exactly as often as in the input, and no other element appears. |
| `Seqs.FilterIsUnique` | dashboard-app/src/Dashboard.jsx:116-119 | Those two properties determine the filtered sequence completely. |
| `Dates.CivilDayCountsDays` | dashboard-app/src/Dashboard.jsx:99-111 | Day numbers count calendar days one by one from 1970-01-01 = 0, across month, year and leap-day boundaries. So "n days back" (`setDate(getDate() - n)`) is subtraction of n. |
| `Dates.AnchorIsApril24` | dashboard-app/src/Dashboard.jsx:99-111 | The anchor is 2025-04-24. `last7` starts on 2025-04-17 and `last30` on 2025-03-25. |
| `Metrics.SubsequenceSumAtMost` | dashboard-app/src/Dashboard.jsx:157-163 | Dropping timeline points never raises the project total, so the scaling ratio is at most one. |
| `Fixtures.FixtureDaysAreCalendarDays` | dashboard-app/src/Dashboard.jsx:41-66 | The seven sampled days are the day numbers of 2025-03-26 … 2025-04-24. |
| `Fixtures.FixtureIsWellFormed` | dashboard-app/src/Dashboard.jsx:40-90 | Both keyed tables have the `all` fallback series, and every timeline is in date order. |
| `Fixtures.AllTimelineIsPointwiseSum` | dashboard-app/src/Dashboard.jsx:40-67 | Day by day, the `all` timeline is Telangana's count plus Karnataka's (for example 2 + 0 = 2 on 2025-03-26). |
| `Fixtures.AllPerformanceIsPointwiseSum` | dashboard-app/src/Dashboard.jsx:71-90 | Process by process, the `all` cumulative time is the sum of the two states' times. |
| `Fixtures.TimelineTotals` | dashboard-app/src/Dashboard.jsx:41-67 | The timelines hold 18 (Telangana), 6 (Karnataka) and 24 (all) projects. |
| `DateFilter.FilterTimeline` | dashboard-app/src/Dashboard.jsx:95-120 | The result is the order-preserving subsequence holding exactly the points whose day is in the selection's window, bounds inclusive. Its project total is at most the input's. |
| `DateFilter.UnfilteredRangesKeepTimeline` | dashboard-app/src/Dashboard.jsx:96-113 | `all`, and any range other than custom, last7 and last30, return the timeline unchanged. |
| `DateFilter.FilterTimelineIsUnique` | dashboard-app/src/Dashboard.jsx:116-119 | No other subsequence has the filter's multiplicities. |
| `DateFilter.RelativeRangesCountBackFromAnchor` | dashboard-app/src/Dashboard.jsx:99-111 | `last7` and `last30` keep exactly the points from 7 or 30 days before 2025-04-24 through 2025-04-24. The custom dates have no effect on them. |
| `DateFilter.InvalidCustomRangeIsEmpty` | dashboard-app/src/Dashboard.jsx:101-119 | A custom range with an unparsable date, or with start after end, yields an empty timeline and no error. |
| `Seqs.FilterIdempotent` | dashboard-app/src/Dashboard.jsx:116-119 | Filtering an already filtered sequence with the same test changes nothing. |
| `DateFilter.FilterTimelineIdempotent` | dashboard-app/src/Dashboard.jsx:116-119 | Filtering an already filtered timeline changes nothing. |
| `DateFilter.SortedTimelineFiltersToSlice` | dashboard-app/src/Dashboard.jsx:116-119 | On a timeline in date order, the filtered points are one contiguous slice `data[i..j]`. |
| `Views.FilteredStateData` | dashboard-app/src/Dashboard.jsx:123-126 | `all` keeps every row. A single state keeps, in order, exactly the rows whose lower-cased name equals the selection. |
| `Views.SingleStateSelectsItsRow` | dashboard-app/src/Dashboard.jsx:125 | When the lower-cased names are distinct, a single state keeps at most one row. It keeps one exactly when some row carries its name, and that row is the one kept. |
| `Views.TimelineFor` | dashboard-app/src/Dashboard.jsx:156-161 | The timeline lookup returns the selected state's own series when the table holds that name, and the `all` series for any other name. `Scenarios.LookupsFallBackToAll` instantiates this on the literal data. |
| `Views.PerformanceFor` | dashboard-app/src/Dashboard.jsx:194 | The performance lookup returns the selected state's own table when there is one, and the `all` table for any other name. |
| `Views.ChartTimeline` | dashboard-app/src/Dashboard.jsx:191 | The trend chart shows the selected series' points that are in the window, in order, each as often as the series holds it, and no other point. |
| `Views.CoverageView` | dashboard-app/src/Dashboard.jsx:128-151 | There is one bar group per data source, in the order LT, Casemine, Attachments, RERA. Groups are side-by-side comparisons exactly when the selection is `all`. |
| `Views.ComparisonJoinsSingleViews` | dashboard-app/src/Dashboard.jsx:128-151 | For each source, the `all` view's telangana and karnataka figures are the values the single-state views show. |
| `Views.Alerts` | dashboard-app/src/Dashboard.jsx:492-513 | There is no panel for `all`. Otherwise the heading names the first selected row's state, or no state when no row is selected. There are three warnings, read from that row: coverage below 10% (100 tenths), quoting the coverage; missing RERA data above 0, quoting the count; and an LT warning exactly for `karnataka`. |
| `Totals.RoundRatio` | dashboard-app/src/Dashboard.jsx:163-173 | `Math.round(n * (f / a))`: the result r satisfies 2a·r ≤ 2n·f + a < 2a·(r+1). That is, r is n·f/a rounded half up. |
| `Totals.RoundRatioAtMost` | dashboard-app/src/Dashboard.jsx:163-173 | Scaling by a ratio of at most one never gives more than the unscaled value. |
| `Totals.RoundRatioOfWhole` | dashboard-app/src/Dashboard.jsx:163-167 | A ratio of one gives the value back. |
| `Totals.RoundRatioMonotone` | dashboard-app/src/Dashboard.jsx:163-173 | A larger filtered share never gives a smaller scaled value. |
| `Totals.PlainTotals` | dashboard-app/src/Dashboard.jsx:175-186 | Without scaling, each count total is the sum of that count over the selected rows. The average and the total processing time are the selected state's constants. |
| `Totals.ScaledTotals` | dashboard-app/src/Dashboard.jsx:166-174 | Every scaled count, and the scaled processing time, is at most its unscaled value. |
| `Totals.ComputeTotals` | dashboard-app/src/Dashboard.jsx:154-188 | The average processing time is the state's constant in both branches. No total exceeds the plain sum over the selected rows. The processing time never exceeds its constant. |
| `Totals.UnscaledTotalsArePlainSums` | dashboard-app/src/Dashboard.jsx:175-186 | With no date range, or a filtered timeline summing to 0, every count is the plain sum and the processing time is unscaled. |
| `Totals.ScaledTotalsFollowTimelineShare` | dashboard-app/src/Dashboard.jsx:160-174 | Under an active filter, 0 < filtered ≤ full. Each count and the total processing time equal round(raw × filtered ÷ full). |
| `Totals.DateFilterNeverRaisesTotals` | dashboard-app/src/Dashboard.jsx:160-186 | For any date range, each total is at most its "All Time" value, and the average processing time is identical. |
| `Totals.WholeTimelineLeavesTotalsUnscaled` | dashboard-app/src/Dashboard.jsx:160-174 | A date range that keeps the whole timeline gives exactly the "All Time" totals. |
| `Totals.EmptyWindowFallsBackToAllTime` | dashboard-app/src/Dashboard.jsx:157-186 | A window whose points hold no projects gives the "All Time" totals. |
| `Totals.InvalidCustomRangeShowsAllTimeTotals` | dashboard-app/src/Dashboard.jsx:154-188 | An inverted or unparsable custom range shows an empty chart and the "All Time" totals. |
| `Scenarios.LowerCaseNames` | dashboard-app/src/Dashboard.jsx:125 | `Telangana` and `Karnataka` lower-case to the selector values. |
| `Scenarios.StateRowsOfFixture` | dashboard-app/src/Dashboard.jsx:123-126 | `all` keeps both rows. `telangana` and `karnataka` keep their own row. Any other name keeps none. |
| `Scenarios.LookupsFallBackToAll` | dashboard-app/src/Dashboard.jsx:191-194 | The two states get their own timeline and performance table. Any other name gets the `all` ones (also the lookups at :156 and :161). |
| `Scenarios.TelanganaAllTimeTotals` | dashboard-app/src/Dashboard.jsx:175-186 | Telangana over all time: 63 projects, 59 processed, 55 LT, 19 Casemine, 58 attachments, 248.47 s average, 14660 s total. |
| `Scenarios.AllStatesAllTimeTotals` | dashboard-app/src/Dashboard.jsx:175-186 | Both states over all time: 101, 96, 56, 27, 59, 261.03 s, 26364 s. |
| `Scenarios.TelanganaLastSevenDays` | dashboard-app/src/Dashboard.jsx:104-107 | `last7` keeps Telangana's points of 2025-04-20 and 2025-04-24. |
| `Scenarios.TelanganaLastSevenDaysShare` | dashboard-app/src/Dashboard.jsx:157-163 | Those points hold 5 of Telangana's 18 projects. |
| `Scenarios.TelanganaLastSevenDaysTotals` | dashboard-app/src/Dashboard.jsx:160-174 | Telangana over the last seven days: 18 (17.5 rounded up), 16, 15, 5, 16, 248.47 s, 4072 s. |
| `Scenarios.TimelinesSpanSampledDays` | dashboard-app/src/Dashboard.jsx:41-67 | Every timeline the lookup can return lies within 2025-03-26 … 2025-04-24. |
| `Scenarios.CoveringWindowKeepsTimeline` | dashboard-app/src/Dashboard.jsx:116-119 | A window covering 2025-03-26 … 2025-04-24 keeps every point. |
| `Scenarios.LastThirtyDaysKeepEverything` | dashboard-app/src/Dashboard.jsx:108-111 | `last30` keeps the whole timeline of any state, so its totals are the "All Time" totals. |
| `Scenarios.InitialCustomRangeKeepsEverything` | dashboard-app/src/Dashboard.jsx:6-9 | A custom range with the initial dates keeps the whole timeline and the "All Time" totals. |
| `Scenarios.KarnatakaRaisesAllAlerts` | dashboard-app/src/Dashboard.jsx:499-513 | Karnataka shows all three warnings: 0% complete coverage, 6 projects missing RERA data, and the LT warning. |
| `Scenarios.TelanganaAlerts` | dashboard-app/src/Dashboard.jsx:499-513 | Telangana shows the 7.9% coverage and 4-missing-RERA warnings, but no LT warning. |
| `Scenarios.UnknownStateView` | dashboard-app/src/Dashboard.jsx:123-194 | A state name the data does not know gets zero counts and the `all` timeline. It also gets Karnataka's coverage and an alert panel without warnings. |
| `Scenarios.CoverageAgreesWithMetrics` | dashboard-app/src/Dashboard.jsx:128-149 | Each coverage figure is its row's share, rounded half up in tenths of a percent: fetched ÷ total projects for LT, Casemine and attachments; (total − missing RERA) ÷ total for RERA. The RERA figure equals the row's RERA availability. |

## Left out

- Rendering is not modelled: JSX, recharts charts, lucide icons, CSS classes and page text (Dashboard.jsx:196-532). Only the values the page reads from the derived views are modelled.
- React state and memoisation are not modelled: `useState`, `useMemo` and the `onChange` handlers. The selection is an immutable input value; memoisation changes no value.
- JavaScript `Date` is not modelled.
  - Custom dates reach the model already parsed, or as `None` when they do not parse.
  - `setDate` works in local time, while `new Date('YYYY-MM-DD')` is midnight UTC. The model subtracts whole days. With a daylight-saving change in the window this shifts the bound by at most an hour, which cannot move a sampled day across it.
- `Totals.RoundRatio` rounds the exact rational n·f/a. The code multiplies by a double-precision `ratio`. A product that should be exactly .5 can come out just below it, and then the code rounds down where the model rounds up.
- Display arithmetic and formatting are not modelled: `toFixed`, the seconds-to-hours conversion, pie-chart percent labels, the "Daily Avg" strings, the `COLORS` cycling, chart titles and footer text.
- `Views.ToLower` lower-cases ASCII letters only. The state names are ASCII.
- Lookups see only the keys of the three keyed tables. In JavaScript, a selection naming an inherited object property (`constructor`, say) would find that property instead of falling back to `all`.
- Counts are natural numbers. The literal data has no negative counts, and that fact is what makes the scaled totals bounded by the unscaled ones.
- Some fields are held in the entities but never read by the derived views: `reraTotal`, and the per-process `avgTime`, which nothing reads.
