# Sistema VIC analytics engine, in Dafny

Sistema VIC is a browser dashboard for current/voltage/power sensors. Its
`app.js` fetches a batch of readings and normalises and sorts them. It filters
them by sensor and time range and integrates power into kWh, cost and CO2. It
forecasts the next week's cost from weekly buckets and groups and thins the
readings for a line chart and a doughnut chart. It also builds printable
reports with a kWh total and a peak power. This project models that engine
and proves what the code promises about it.

Modules, in dependency order:

- `Common` (common.dfy): `Option`, and `CeilDiv` for `Math.ceil(a / b)`.
- `Sorting` (sorting.dfy): a stable insertion sort. It stands for
  `Array.prototype.sort`, which is stable.
- `Readings` (readings.dfy): `parseDateSystem`, the record normalisation of
  `loadEnergyData`, and the sort by time.
- `TimeFilter` (timefilter.dfy): the predicate of `applyFilters`.
- `Energy` (energy.dfy): the integrator of `calculateStats`, and the kWh/peak
  loop and row selection of `generatePDF`.
- `IsoWeek` (isoweek.dfy): `getWeekKey` over Gregorian day numbers, the
  `YYYY-W<n>` text and JavaScript's string order.
- `Regression` (regression.dfy): the least-squares sums, slope, intercept
  and next-week value.
- `Forecast` (forecast.dfy): `calculatePrediction`. It builds the weekly
  cost buckets, orders the weeks and yields one of three outcomes.
- `Charts` (charts.dfy): the grouping by sensor, the decimation of long
  groups and the per-sensor power totals of `updateCharts`.
- `App` (dashboard.dfy): the page state as a class `Dashboard`. Its fields
  are `allDataGlobal`, `filteredDataGlobal`, `sensorColorMap`, `colorIndex`,
  `electricityRate` and the chart contents. Its methods are `getSensorColor`,
  `loadEnergyData`, `applyFilters`, `updateUI`, `updateCharts` and
  `renderCards`.

Representation:

- Instants are integer milliseconds.
- Days are integer day numbers, with 0 being 1 January 1970.
- Powers, rates, costs and energies are mathematical reals.

The report peak of `generatePDF` starts `maxP` at 0 and scans from index 1
(app.js:533-542), so the first reading is never looked at and an all-negative
selection reports 0. The model follows that (`Energy.PeakAfterFirst`).

JavaScript `Date` enters only as given functions:

- `parse` is `new Date(text)`, with `None` where the time is `NaN`.
- `localDay` is the local calendar day of an instant, which `getWeekKey`
  reads through `getFullYear`/`getMonth`/`getDate`.
- A `Calendar` value holds the local boundaries that `applyFilters` and
  `generatePDF` derive from "now" and from the date inputs.

## Model

| member | source | states |
|---|---|---|
| App.RememberSpec | app.js:18-26 | After `getSensorColor(name)` the name has a colour. A name already known leaves the map and `colorIndex` unchanged. A new name gets `availableColors[colorIndex % 10]`, the index goes up by exactly one and exactly that name is added. |
| App.RememberKeeps | app.js:18-26 | No colour given earlier is ever changed by a later call. |
| App.RememberTwice | app.js:18-26 | Asking twice for the same name gives the same colour and the same memo as asking once. |
| App.RememberCounted | app.js:11-26 | Each call keeps the memo invariant: `colorIndex` equals the number of names that have a colour. |
| App.RememberAllCounted | app.js:11-26 | Any sequence of calls keeps that invariant. |
| App.RememberAllPalette | app.js:11-26 | Every colour handed out is one of the ten palette colours. |
| App.RememberAllStep | app.js:421-422 | Colouring one more name is one more `getSensorColor` call on the memo left by the earlier ones. |
| App.RememberAllCovers | app.js:18-26 | After a run of calls every name asked for has a colour, and the earlier colours are kept. |
| App.RememberAllKnown | app.js:18-26 | Calls for names that all have a colour change nothing. |
| App.RefreshKeepsColors | app.js:18-26 | A refresh that leaves the memo alone, or runs `getSensorColor` over any names, keeps every colour given before it. |
| App.RememberAllIdempotent | app.js:18-26 | Colouring the same names a second time changes nothing, so redrawing the charts keeps the colours. |
| App.FreshColors | app.js:11-26 | From the empty memo, distinct names get the palette colours in order and cycle after ten. Exactly those names are coloured, and the index equals their number. |
| App.Dashboard.constructor | app.js:4-16 | The initial page has no readings, no colours, index 0, the rate 0.595 and empty charts, and it satisfies the invariant. |
| App.Dashboard.GetSensorColor | app.js:18-26 | The new map and index are the memo step for the name, and the returned colour is the name's entry. Every earlier colour is kept, and the other fields do not change. |
| App.BuildLine | app.js:421-469 | The dataset of one sensor is its group, sampled only above 500 readings and then to at most 300 points, in the sensor's colour, with the point radii given by the group length. |
| App.Lines | app.js:421-469 | One dataset per sensor name. |
| App.Slices | app.js:485-491 | One doughnut slice per sensor label. |
| App.LinesAt | app.js:421-469 | The k-th dataset is sensor k's own readings, sampled, in that sensor's colour. |
| App.SlicesAt | app.js:475-491 | The k-th slice is sensor k's sum of `valP`, in that sensor's colour. |
| App.LinesKept | app.js:421-422 | The datasets depend only on their own sensors' colours. Colours given later do not change them. |
| App.ColorsOf | app.js:487 | `sensorLabels.map(getSensorColor)` yields, position by position, each label's colour. |
| App.ColorsStep | app.js:259-260 | Looking up one more card colour appends that colour and leaves the earlier ones unchanged. |
| App.SlicesStep | app.js:485-491 | One more label appends its slice after the earlier ones. |
| App.Shown | app.js:253 | `slice(0, 50)` is the prefix of the input with exactly min(50, n) readings: the whole input when it is no longer than 50, its first 50 readings otherwise. |
| App.Reversed | app.js:151 | The card order is the selection reversed, newest first. |
| App.SensorNames | app.js:259-260 | The sensor of each card, in order. |
| App.CardsAreCharted | app.js:148-153 | After the charts are drawn, every card's sensor already has a colour. |
| App.Summarize | app.js:155-189 | The statistics are the `calculateStats` figures for the selection. The forecast is computed exactly when the selection is not empty, and then it is the calendar-ordered forecast over the whole history (see Findings). |
| App.Dashboard.UpdateCharts | app.js:404-495 | An empty selection leaves the charts and colours as they were. Otherwise the sensors are coloured in first-seen order, with one line per sensor (sampled, in its colour) and one slice per sensor holding its power total. The memo invariant is kept. |
| App.Dashboard.UpdateLines | app.js:408-472 | The line chart gets a dataset per sensor of the selection, in first-seen order. Each sensor was coloured by the memo in that order. |
| App.Dashboard.DrawLines | app.js:421-469 | The `map` over the group names colours each name in turn and builds its dataset from its group. |
| App.Dashboard.DrawLine | app.js:422-468 | One step: the memo step for `names[k]`, and that sensor's dataset appended. |
| App.Dashboard.UpdateSlices | app.js:473-492 | The doughnut gets each sensor's total in its existing colour, and the memo is unchanged. |
| App.Dashboard.DrawSlices | app.js:485-491 | The labels, values and colours become one slice per label, with nothing else changed. |
| App.Dashboard.DrawSlice | app.js:485-491 | One step of that construction. |
| App.Dashboard.RenderCards | app.js:249-293 | The first 50 readings are coloured in order through the memo, and each card shows its sensor's colour. |
| App.Dashboard.UpdateUI | app.js:148-153 | The statistics, the calendar-ordered forecast (see Findings), the charts and the cards (newest 50, reversed) all show the current selection. The history, the selection and the rate do not change. |
| App.Dashboard.Redraw | app.js:150-152 | The charts, then the cards. The invariant is kept. |
| App.Dashboard.ApplyFilters | app.js:82-127 | The selection becomes the filtered history, and everything shown is then refreshed from it as in `updateUI`, with the calendar-ordered forecast. Every colour given before keeps its value. |
| App.Dashboard.LoadEnergyData | app.js:55-80 | A missing or empty batch changes nothing and shows nothing. Otherwise the history becomes the normalised batch sorted by time, the selection is re-filtered and the page is refreshed with the calendar-ordered forecast. The colour memo is left alone for an empty selection, and otherwise advanced over the selection's sensors in first-seen order. Every colour given before survives the reload, and the history stays chronological. |
| Readings.ParseDateSystem | app.js:45-53 | An instant results exactly when the text is present, non-empty and parses, and it is the parsed instant. |
| Readings.Coerce | app.js:64-66 | `parseFloat(v) \|\| 0`: a value that is not a number becomes 0, any other value is kept. |
| Readings.SensorOrDefault | app.js:67 | An absent or empty sensor name becomes "SCT013", any other name is kept. The result is never empty. |
| Readings.NormalizeRecord | app.js:60-69 | A record yields one reading exactly when its timestamp parses. That reading has the parsed time, each non-numeric field as 0, each numeric field as given, and its sensor or the default. |
| Readings.Normalize | app.js:60-69 | The batch never grows. |
| Readings.NormalizeAppend | app.js:60-69 | Records are normalised independently, so normalisation distributes over concatenation. |
| Readings.NormalizeOrigin | app.js:60-69 | Every output reading is the normalisation of some input record. |
| Readings.NormalizeKeeps | app.js:60-69 | Every record whose timestamp parses appears, normalised, in the output. |
| Readings.NormalizeDrops | app.js:60-69 | A record with a missing, empty or invalid timestamp contributes nothing. |
| Readings.SortByTimeCorrect | app.js:71 | After the sort, time never decreases along the history, and the history is a permutation of the input. |
| Readings.SortByTimeStable | app.js:71 | Readings with the same timestamp keep their fetch order. |
| Sorting.SortByPermutes | app.js:71 | The sort keeps the length and the multiset of elements. |
| Sorting.SortBySorted | app.js:215 | With a total order, the sort's output is ordered between neighbours. |
| Sorting.SortByPair | app.js:215 | Two elements stay in place when the first goes first, and are swapped when the test puts the second strictly first. |
| Sorting.SumOverSortBy | app.js:215-228 | Reordering the week keys does not change the sum of their costs. |
| TimeFilter.ApplyFilter | app.js:91-122 | The selection is an order-preserving subsequence of the history. Every kept reading passes the sensor and range tests. Each reading that passes occurs as often as in the history, and each that fails does not occur. |
| TimeFilter.RangeBranches | app.js:99-121 | "today" is from the start of today. "yesterday" is the half-open day before. "week" and "month" are from a week and a month ago. "custom" with both dates is the closed range up to 23:59:59 of the end date, and passes nothing when either date is invalid. "custom" missing a date, or any other range, passes everything. |
| TimeFilter.CustomSingleDay | app.js:115-119 | When the `Calendar` puts the custom start at some midnight and the end 23:59:59 later (what `new Date(dFrom)` and `setHours(23, 59, 59)` give for one date at UTC offset 0), the filter keeps exactly the readings in that closed interval. It says nothing about other offsets; see Left out. |
| TimeFilter.FilterPassesAll | app.js:95-121 | With sensor "all" and no matching range branch, the filter returns the history unchanged. |
| TimeFilter.FilterChronological | app.js:91-122 | Filtering a chronological history gives a chronological selection. |
| Energy.IntervalKWh | app.js:171-177 | An interval the gap test rejects contributes 0. A counted interval between non-negative powers contributes a non-negative amount. |
| Energy.EnergyPrefixStep | app.js:167-179 | Each pass of the loop adds the energy of the interval ending at the current reading. |
| Energy.StatsTrapezoid | app.js:170-177 | The inline `hDiff`, the test `0 < hDiff < 1` and `avgKW * hDiff` of `calculateStats` are the gap test and the interval energy. |
| Energy.ReportTrapezoid | app.js:535-538 | The `/2000` trapezoid of `generatePDF` is the same interval energy as the `/2/1000` of `calculateStats`. |
| Energy.StatsStep | app.js:168-178 | One loop pass adds exactly the interval energy to the total. |
| Energy.CalculateStats | app.js:155-182 | An empty selection shows zeros. Otherwise the current power is the last reading's, the energy is the gated trapezoid sum, cost = kWh × rate and CO2 = kWh × 0.45. |
| Energy.EnergyNonNegative | app.js:167-179 | With no negative power, the total energy is never negative. |
| Energy.EnergySplit | app.js:167-179 | Energy is additive: a history integrates to the sum of its two parts split at a shared reading. |
| Energy.OneHourGapIgnored | app.js:174 | Two readings exactly one hour apart contribute nothing, because the bound is exclusive. |
| Energy.FiftyNineMinutesCounted | app.js:174-177 | 1000 W then 3000 W 59 minutes apart contribute 2 kW × 59/60 h. |
| Energy.PeakPrefixStep | app.js:541 | Each pass raises the peak to the current reading's power when that is higher. |
| Energy.PeakAfterFirstIsMax | app.js:533-542 | The report peak is at least 0 and at least every reading from index 1 on. It is 0 or one of those readings' powers. |
| Energy.PeakIgnoresFirst | app.js:534-542 | The first reading never affects the peak. |
| Energy.ReportStep | app.js:535-541 | One loop pass adds the interval energy and keeps the running maximum. |
| Energy.ReportSummary | app.js:533-542 | The report's kWh equals the `calculateStats` kWh on the same rows, and its peak is the maximum of 0 and the powers from index 1 on. |
| Energy.TodayReportMatchesFilter | app.js:509-511 | The daily report selects exactly what the "today" filter over all sensors shows. |
| Energy.SinceMatchesFilter | app.js:100-101 | Keeping the readings from the start of today is the "today" branch of the filter. |
| Energy.GenerateReport | app.js:497-543 | There is no report exactly when the selected rows are empty. Otherwise the report holds their kWh, that kWh times the rate, and the peak. |
| IsoWeek.JanFirstStep | app.js:244 | Consecutive New Years are 365 days apart, or 366 after a Gregorian leap year. |
| IsoWeek.JanFirstMonotone | app.js:244 | New Year of a later year is at least 365 days per year later. |
| IsoWeek.YearOf | app.js:244-246 | `getUTCFullYear` of a day is a year whose span holds that day. |
| IsoWeek.YearOfUnique | app.js:244-246 | It is the only such year. |
| IsoWeek.YearOfMonotone | app.js:244-246 | Later days never have earlier years. |
| IsoWeek.IsoDayNum | app.js:242 | `getUTCDay() || 7` is between 1 and 7 and, counted from Monday 5 January 1970 as 1, steps with the calendar: 1 for Monday through 7 for Sunday. |
| IsoWeek.ThursdayOf | app.js:243 | The shifted date is the Thursday of the day's Monday-to-Sunday week, within three days of it. |
| IsoWeek.KeyOf | app.js:240-247 | The week number is between 1 and 53. |
| IsoWeek.KeyOfSameWeek | app.js:240-247 | Two days have the same key exactly when they lie in the same Monday-to-Sunday week, in both directions. |
| IsoWeek.SameKeySameThursday | app.js:243-245 | Equal keys come from the same Thursday. |
| IsoWeek.KeyOfMonotone | app.js:240-247 | Keys follow the calendar: a later day never has an earlier (year, week). |
| IsoWeek.FourthOfJanuaryIsWeekOne | app.js:240-247 | 4 January of every year is in week 1 of that year, as the ISO 8601 week date requires. |
| IsoWeek.TwentyEighthOfDecemberInSameYear | app.js:240-247 | 28 December belongs to its own ISO year, and no day of that ISO year has a later week number: its week is the year's last. |
| IsoWeek.WeekAtMostLast | app.js:240-247 | Any day whose key has year y has a week number at most that of 28 December of y. |
| IsoWeek.YearBoundaryExamples | app.js:240-247 | 1 January 2021 is in 2020-W53, and 30 December 2024 is in 2025-W1. |
| IsoWeek.NatToString | app.js:246 | The text of a week number: non-empty, all digits, its decimal value is the number, and it has no leading zero (no padding, as `${weekNo}` renders it). |
| IsoWeek.IntToString | app.js:246 | The text of a year: non-empty, with no 'W'. A non-negative year is its digits with that decimal value, and a negative one is '-' followed by the digits of its magnitude. |
| IsoWeek.NatToStringInjective | app.js:246 | Different numbers have different texts. |
| IsoWeek.IntToStringInjective | app.js:246 | The same holds for years, with signs. |
| IsoWeek.KeyStringInjective | app.js:246 | Different weeks have different `YYYY-W<n>` texts, so bucketing by text is bucketing by week. |
| IsoWeek.StrLeTotal | app.js:215 | JavaScript's default string order compares every pair. |
| Regression.Step | app.js:225-229 | One more week adds 1 to the count and its cost to Σy. |
| Regression.SumsOf | app.js:225-229 | The reduced Σy is the sum of the week costs. |
| Regression.SumsClosed | app.js:217-229 | With x = 1..n the count is n, Σx = n(n+1)/2 and Σx² = n(n+1)(2n+1)/6. |
| Regression.ClosedDenominator | app.js:231 | The slope's denominator equals n²(n²−1)/12, so it is positive from two weeks on. |
| Regression.FitsFromTwoWeeks | app.js:219-232 | With two weeks or more, the slope and intercept are defined. |
| Regression.LineSums | app.js:225-229 | Costs on a line y = a·x + b give sums that satisfy the line's normal equations. |
| Regression.FitOfLine | app.js:231-234 | Sums on a line fit exactly that line, and the next-week value is that line at n + 1. |
| Regression.OlsRecoversLine | app.js:225-234 | Fed week costs that lie on a line, the least-squares fit returns that line and its value at n + 1. |
| Forecast.AddCostSum | app.js:209-210 | Adding a cost to a week keeps each week once and adds the cost to the buckets' total. |
| Forecast.IntervalCostsTotal | app.js:197-213 | Pricing each counted interval and adding up is pricing the integrator's total energy. |
| Forecast.AddPairSum | app.js:198-212 | One loop pass keeps the buckets well formed and adds that interval's cost to their total. |
| Forecast.BucketsSum | app.js:197-213 | The buckets are distinct weeks and together hold the cost of every counted interval so far. |
| Forecast.WeeklyCostsTotal | app.js:197-213 | The weekly buckets add up to the integrator's kWh over the same history, times the rate. |
| Forecast.Values | app.js:216 | `weeks.map(w => weeklyCosts[w])`: one cost per week key, and the i-th is the cost of the i-th key (0 for a key without a bucket). |
| Forecast.SumYValues | app.js:216-220 | The reduced costs equal the sum over the week keys. |
| Forecast.Floor0 | app.js:236 | The clamp is never negative: a negative value becomes exactly 0 and a non-negative value is left alone. |
| Forecast.PredictFrom | app.js:219-236 | Fewer than two weeks give the provisional sum of the costs. Otherwise the outcome is a defined, non-negative forecast equal to the line's next value whenever that is not negative. |
| Forecast.PredictOnLine | app.js:225-236 | Week costs on a line forecast that line's next point, clamped at 0. |
| Forecast.FallingTrendFloored | app.js:236 | Costs 5, 3, 1 extrapolate below zero and forecast exactly 0. |
| Forecast.PredictionAsWritten | app.js:191-238 | As written, with week keys in string order, there are fewer than 10 readings exactly when the outcome is "collecting data" (its other states are in `Forecast.PredictionStatesAsWritten`). |
| Forecast.SortedValuesSum | app.js:197-220 | Whatever the week order, the sorted costs are one per week and sum to the integrator's cost over the history. |
| Forecast.OrderedPredictionStates | app.js:191-236 | Whatever order numbers the weeks: fewer than 10 readings exactly when "collecting data", provisional exactly with 10 or more readings and fewer than 2 weeks and then carrying the integrator's cost, and any forecast non-negative. |
| Forecast.PredictionStates | app.js:191-236 | For the calendar-ordered forecast: fewer than 10 readings exactly when "collecting data". Provisional exactly when there are 10 or more readings and fewer than 2 weeks, and then the total is the integrator's cost. Any forecast is non-negative. |
| Forecast.PredictionStatesAsWritten | app.js:191-236 | The same three states, with the same totals and the non-negative forecast, hold for the forecast as written with the weeks in string order. |
| Forecast.ChronoOrderIsCalendarOrder | app.js:215 | With calendar order the weeks, sorted, are numbered forward in time. |
| Forecast.WeeksNineAndTen | app.js:240-247 | 26 February 2024 is in week 9 of 2024, and 4 March 2024 is in week 10. |
| Forecast.WeekNineAndTenTexts | app.js:246 | Their keys are "2024-W9" and "2024-W10". |
| Forecast.WeekTenBeforeNineAsText | app.js:215 | As text, "2024-W10" comes strictly before "2024-W9". |
| Forecast.WeekTenSortsFirstAsText | app.js:215 | The string sort puts week 10 of 2024 before week 9. Calendar order puts week 9 first. |
| Forecast.FallingPairFloored | app.js:225-236 | Costs 2 then 1 fall along y = 3 − x and forecast 0. |
| Forecast.RisingPairForecast | app.js:225-236 | Costs 1 then 2 rise along y = x and forecast 3. |
| Forecast.WeekOrderChangesForecast | app.js:215-236 | Take a history whose buckets are weeks 9 and 10 of 2024, costing 1 and 2. As written it is forecast at 0. In calendar order it is forecast at 3. |
| Forecast.NineAndTenForecasts | app.js:215-236 | Those two week buckets, numbered in string order, forecast 0. Numbered in calendar order, they forecast 3. |
| Forecast.Accumulate | app.js:209-210 | A new week key is appended and starts at 0. The cost is then added to that week's bucket. |
| Forecast.AddInterval | app.js:198-212 | One loop pass: a counted interval's cost goes into its week's bucket, and any other interval changes nothing. |
| Forecast.CalculatePrediction | app.js:191-238 | Fewer than 10 readings give "collecting data". A provisional outcome carries the integrator's cost over the history. A forecast is never negative. The result is the calendar-ordered prediction. |
| Charts.SensorsStep | app.js:410-416 | Each reading adds its sensor to the group names exactly when the sensor is new. |
| Charts.OfSensorSnoc | app.js:414 | A pushed reading joins the end of its own sensor's group and no other group. |
| Charts.SensorsDistinct | app.js:410-416 | Each sensor is named once. |
| Charts.SensorsExactly | app.js:410-416 | The group names are exactly the sensors that occur in the selection. |
| Charts.OfSensorAbsent | app.js:410-416 | A sensor that never occurs has an empty group. |
| Charts.GroupIsSensorSelection | app.js:410-416 | A sensor's group is exactly what the sensor filter alone would select, in order. |
| Charts.GroupsStep | app.js:411-415 | Each reading is pushed onto its sensor's list, which starts empty. |
| Charts.GroupsKeys | app.js:410-416 | There is a group for exactly the sensors that occur. |
| Charts.GroupsValues | app.js:410-416 | Each group holds exactly its sensor's readings, in the original order. |
| Charts.Gather | app.js:411-415 | One `forEach` pass opens the sensor's group if it is new and appends the reading. The names grow only for a new sensor. |
| Charts.GroupBySensor | app.js:410-418 | The names are the sensors in first-seen order, the groups have exactly those keys, and each group is its sensor's readings in order. |
| Charts.DecimateIndices | app.js:436-437 | The decimated group has `ceil(len/step)` points, and its k-th point is the original point `k·step`. |
| Charts.DecimateKeepsMultiples | app.js:437 | Every index that is a multiple of the step is kept. |
| Charts.DownsampleShape | app.js:434-439 | Groups of 500 or fewer are unchanged. Longer groups keep the indices that are multiples of `ceil(len/300)`, in order: `ceil(len/step)` points, between 1 and 300, starting with the first. |
| Charts.SumPSnoc | app.js:480 | Adding one reading adds its power to the total. |
| Charts.SensorSumPartition | app.js:475-481 | The groups partition the selection: the sensors' totals add up to the total power. |
| Charts.TotalsStep | app.js:476-480 | Each reading adds its power to its sensor's total, which starts at 0. |
| Charts.TotalsKeys | app.js:475-481 | There is a total for exactly the sensors that occur. |
| Charts.TotalsValues | app.js:475-481 | Each sensor's total is the sum of `valP` over its own readings. |
| Charts.TotalsSummary | app.js:475-486 | The totals have exactly the sensors as keys, each is its sensor's power sum, and together, in label order, they are the total power. |
| Charts.Tally | app.js:476-480 | One pass adds the reading's power to its sensor, and the labels grow only for a new sensor. |
| Charts.SensorTotals | app.js:475-486 | The labels are the sensors in first-seen order, the totals have exactly those keys, and each total is its sensor's power sum. The totals add up to the total power. |
| Common.CeilDiv | app.js:436 | `Math.ceil(a / b)` is the least r with r·b ≥ a. |

## Left out

- The DOM is not modelled: reading the inputs, writing text, the HTML of the cards, `updateSensorFilter`, navigation and event listeners. The model keeps the values that get shown (`Stats`, `Outcome`, datasets, slices, card colours).
- Chart.js configuration, the `update('none')` calls and the `!powerChart` guard are left out. The charts are always taken to exist.
- The x labels of chart points are left out. They are `getHours`/`getMinutes`/`getSeconds` padded with `padStart`, and a point's `y` is the reading's `valP`.
- The `toFixed` rendering of numbers is left out. The model states the numeric values instead.
- The jsPDF page layout, the XLSX export and `loadSettings`/`localStorage` are left out; they are output or browser storage. `electricityRate` is a field that keeps its value.
- The 30-second `setInterval` polling, `fetch` and its `try`/`catch`, `console` and `alert` are left out; they are timing, network and logging. The batch is a parameter: `None` for a missing batch.
- data.js, api.php and insertar.php are not part of this model.
- JavaScript `Date` is not modelled. Text parsing, time zones and `setDate`/`setMonth`/`setHours` rollover are given functions (`parse`, `localDay`, `Calendar`).
- TimeFilter.CustomSingleDay: holds only under its hypothesis on the `Calendar` bounds, which the code meets only at UTC offset 0. `new Date(dFrom)` reads a date-only input as midnight UTC, while `setHours(23, 59, 59)` (app.js:116-118) is local, and so are the readings' own times (`new Date(dateStr)`, app.js:47, which browsers read as local time for the server's text with no zone). At UTC-6, from = to = 2024-01-01 covers 31 December 18:00 to 23:59:59 local and no reading of 1 January; east of UTC the range misses the first hours of the day. Time zones are not modelled, so this mismatch is recorded here and not derived.
- `Date.UTC` maps the years 0 to 99 to 1900 to 1999; the year arithmetic of `IsoWeek` uses the proleptic Gregorian calendar for every year.
- Readings.SortByTime: the in-place `allDataGlobal.sort(...)` is modelled as a value, a stable sort whose result is assigned to the history field.
- JavaScript numbers are IEEE doubles. The model uses exact reals and unbounded integers, so it has no rounding and no overflow of `colorIndex`.
- `parseFloat`'s `NaN` is an absent field (`None`). Text that `parseFloat` reads only in part is taken as already converted.
- Truthiness tests (`!dateStr` in `parseDateSystem`, `item.sensor || ...`, `dFrom && dTo`) are modelled as "absent or empty".
- `Object.keys` lists integer-like keys first, and a sensor named like an `Object.prototype` member would read an inherited value. The model takes sensor names to be plain and kept in first-seen order.
- Forecast.CalculatePrediction: numbers the weeks in calendar order, not the text order the code uses; see Findings. The as-written order is `Forecast.PredictionAsWritten`.
- App.Summarize: shows the calendar-ordered forecast (`Forecast.IntendedPrediction`), not the text-ordered one the page computes; see Findings.
- App.Dashboard.UpdateUI: shows the calendar-ordered forecast, as `App.Summarize` does.
- App.Dashboard.ApplyFilters: shows the calendar-ordered forecast, as `App.Summarize` does.
- App.Dashboard.LoadEnergyData: shows the calendar-ordered forecast, as `App.Summarize` does.

## Findings

| source | as written | input that shows it | evidently intended | confidence | as-written member | corrected member |
|---|---|---|---|---|---|---|
| app.js:215 | `Object.keys(weeklyCosts).sort()` orders the week keys as text, so "2024-W10" comes before "2024-W9". x = 1..n then does not follow time, and the trend is reversed. | A history whose buckets are 2024-W9 costing 1 and 2024-W10 costing 2: string order numbers the costs 2, 1 and forecasts 0. | Number the weeks in calendar order (year, then week): costs 1, 2, forecast 3. | not executed | Forecast.PredictionAsWritten, Forecast.WeekTenSortsFirstAsText, Forecast.WeekOrderChangesForecast | Forecast.IntendedPrediction, Forecast.CalculatePrediction, Forecast.ChronoOrderIsCalendarOrder |
