# ai-tally money logic, modelled in Dafny

The dashboard of ai-tally keeps its money logic in small TypeScript modules under `web/lib`. Money
is an integer number of micro-USD, and one rule runs through all of them: figures that are printed
next to each other must agree exactly. This project models those modules in Dafny and proves what
their comments and checks promise, for every input, every run or every answer of the database.

What is modelled, module by module:

| part | files | what it is about |
|---|---|---|
| splitting a shared bill | `Allocation`, `Accounts` | largest-remainder division, and the accounts table it feeds |
| settled spend | `SettledSeries`, `SeriesTheorems` | which days count, and what was spent on them |
| forecasting | `Forecast`, `ForecastTheorems`, `ForecastFigures` | weekday medians, the cone, the first budget crossing |
| the burn-down | `Budgets`, `Burndown`, `BurndownTheorems`, `WindowTheorems`, `BudgetComparison` | the chart against the figures printed beside it |
| scoped budgets | `SpendScopes`, `ScopedForecast`, `ScopedTheorems`, `StandingRules`, `StandingTheorems`, `StandingExample`, `CreditExample` | one bill in slices, and where each slice stands |
| cost explorer | `Explore`, `ExploreTheorems` | capping, folding and pivoting groups |
| attribution | `Revenue`, `RevenueTheorems`, `Wilson` | the revenue query and the Wilson interval |
| protocols | `QueryCache`, `LivePoll` | the coalescing cache and the polling hook |
| parsers and printers | `Filters`, `FilterTheorems`, `Dollars`, `DollarTheorems`, `Calendar` | URL state, dollar strings, dates |
| shared | `Sums`, `Sorting`, `Money`, `Layers`, `Text`, `Results` | sums over lists, stable sorting, rounding |

How the model is put together:

- A loop, an in-place update or a list of pushes in the source is a method here, proved equal to a
  function of its input; the theorems are about that function. `RunningTotals`, `Cache`, `Poller` and
  `SearchParams` are classes because the source updates those objects in place. `Array.prototype.sort`
  is `Sorting.SortInPlace`, which reorders an array and leaves the one stable arrangement `Sort` names.
- A database read is a list of rows related to one list of spans by a predicate (`AnswersCost`,
  `AnswersTotals` and their like): one row per group, in any order, holding that group's sum or
  count. Two reads over the same spans are two such lists.
- Dates are day numbers inside the pipelines. `Calendar` proves that day numbers, `YYYY-MM-DD`
  strings and their string order are the same thing for the years 0100 to 9999, after the date
  operations of section 21.4.1 of ECMA-262.
- The two protocols are steps of a state machine. `CanRun` and `Run` speak about every sequence of
  steps, and the class beside each machine is the code that takes the steps.
- A square root is any function `r` with `r(x) >= 0` and `r(x) * r(x) == x`. The order `localeCompare`
  puts on labels and ids is a parameter.

Every lemma carries `{:induction false}`: each proof says itself where it recurses.

## Where the code and what is written about it disagree

The model follows the code. In each case a concrete input is named where the claim fails, and the exact
condition under which it holds is proved.

- web/lib/allocation.ts:85-88 promises safe integers "for every input". A sum can leave the safe
  range (`GuaranteeThreeCanFail`). `SafeExactly` decides the promise from the arguments: under the
  pro-rata rule it hangs, beside the two totals, on the costliest account alone.
- web/lib/burndown.ts:139 says a quiet layer can fall below the history floor while the tenant does
  not. It never can: layers are fed the same days (`LayerStatusIsSectionStatus`), so every input is a
  counterexample.
- web/lib/explore.ts:232-233 says the folded tail holds no unknown cost unless all of it is unpriced.
  That fails exactly when the unknown groups are more than the cap but not all the groups
  (`UnknownFoldedExactly`), and then the fold shows a dollar figure over a group whose cost is unknown
  and which nothing on the page names (`FoldHidesUnknownExactly`, `FoldedIsUnnamed`;
  `FoldCanHideUnknown` is an input).
- web/lib/explore.ts:261-266 says a day's bars sum to that day's spend. The bars are properties of a
  plain object, so a group called `constructor` adds its cost to an inherited member and its bar
  becomes text (`PivotCanFail`). `DayTotalExactly` is the condition for the day's sum, and
  `PivotHoldsExactly` for the whole chart holding the sums it is meant to.
- web/lib/forecast.ts:402 asks whether the budget is reached, web/lib/scopedForecast.ts:269 whether it
  is exceeded. So a projected breach always has a date, but a date does not always mean a breach:
  `OnTrackWithDateExactly` says when, and `OnTrackWithDateHappens` is a month in which it happens.
- web/lib/scopedForecast.ts:14-19 says a slice cannot exceed the whole. With credits it can
  (`CreditsCanBreakIt`); `ReconcilesExactly` is the condition, and without credits it always holds
  (`SpendAlwaysReconciles`).
- The tooltip in web/components/BurndownChart.tsx:175 says the band is widest just after the last
  settled day and closes to nothing on the last date. Within one forecast the band widens
  (`ConeWidensAhead`): it closes only when there is no spread or nothing left to project, and is widest
  first only when there is no spread or hardly a day left (`TooltipHoldsExactly`). `TooltipCanFail` is a
  forecast for which both halves are false. What narrows to nothing is the end-of-period band, from one
  day's forecast to the next (`ConeNarrowsAsPeriodCloses`).

## Model

| member | source | states |
|---|---|---|
| `Allocation.LargestRemainder` | web/lib/allocation.ts:189-220 | The three loops and the in-place sort leave in the array exactly the split that the lemmas below are about |
| `Allocation.FloorShares` | web/lib/allocation.ts:197-206 | First loop: every share is the signed floor of its exact share, with the remainders and the units handed out so far |
| `Allocation.HandOutLeftover` | web/lib/allocation.ts:214-218 | Last loop: each of the first `units` entries of the ranking moves its account one unit away from zero, and no other share changes |
| `Allocation.LeftoverBounds` | web/lib/allocation.ts:208-209 | The leftover units are what the remainders add up to, and are fewer than the accounts |
| `Allocation.RankingDistinct` | web/lib/allocation.ts:92-93 | No account is ranked twice, so no unit lands twice |
| `Allocation.ExtraGoesToLargestRemainders` | web/lib/allocation.ts:92-93 | Exactly the leftover number of accounts gets one extra unit, and whoever gets one had a larger remainder, or an equal one and an earlier place, than whoever does not |
| `Allocation.SplitSumsToTotal` | web/lib/allocation.ts:181-188 | The shares sum exactly to the total, for totals of either sign; with no weight at all every share is zero |
| `Allocation.SplitOfCredit` | web/lib/allocation.ts:186-188 | Negating the total negates every share |
| `Allocation.SplitWithinQuota` | web/lib/allocation.ts:91-94 | Every share is the floor or the ceiling of its exact share; a zero-weight account gets exactly zero |
| `Allocation.SplitIsFair` | web/lib/allocation.ts:209-212 | A larger weight never gets a smaller magnitude; equal weights differ by at most one unit, which goes to the earlier account |
| `Allocation.ShareByRank` | web/lib/allocation.ts:189-220 | Every share in closed form, without the sort or the loops: the quotient, and one unit more for whoever fewer accounts outrank than there are leftover units |
| `Allocation.SplitIsOptimal` | web/lib/allocation.ts:189-220 | No other integer split with the same sum has a smaller total of squared distances from the exact shares |
| `Allocation.AllocateShared` | web/lib/allocation.ts:113-180 | The whole function, duplicate scan and fallback included, equals the specification below |
| `Allocation.AllocateAcceptsExactly` | web/lib/allocation.ts:110-127 | It throws exactly on money that is not a safe integer and on a repeated account id |
| `Allocation.AllocationReconciles` | web/lib/allocation.ts:85-87 | Guarantees 1 and 2: ids, order and direct spend are kept, and direct plus allocated plus unallocated is the tenant total, under both rules and the fallback |
| `Allocation.FallbackExactly` | web/lib/allocation.ts:99-107 | Pro rata is replaced by an even split exactly when there are accounts and none has positive direct spend; under pro rata a credit earns no share |
| `Allocation.SafeExactly` | web/lib/allocation.ts:88 | Guarantee 3 holds exactly when the direct total and the tenant total are safe integers and the rows fit. Under the pro-rata rule that is a matter of the costliest account: its direct spend plus its quotient of the pot is below 2^53 - 1, or exactly there with no unit coming on top. Under the even split or the fallback every direct amount plus its plain quotient is safe |
| `Allocation.SafeWhenBounded` | web/lib/allocation.ts:88 | It holds whenever the sizes of all direct amounts and the shared pot add up to a safe integer |
| `Allocation.SafeExactlyWithoutCredits` | web/lib/allocation.ts:88 | Without credits it holds exactly when the tenant bill is a safe integer |
| `Allocation.GuaranteeThreeCanFail` | web/lib/allocation.ts:88 | An input for which it fails |
| `Accounts.QueryAccountCosts` | web/lib/clickhouse.ts:1374-1456 | The table assembled from the two reads, its bucket and its layer figures, by the loops of the source |
| `Accounts.QueryExcludedInfraCost` | web/lib/clickhouse.ts:1458-1490 | The excluded total assembled from its read |
| `Accounts.RowIsAccountDirect` | web/lib/clickhouse.ts:1374-1456 | A row's direct cost, added up over four layers, is all of the account's direct spend: no direct operation maps outside them |
| `Accounts.TableCoversDirectSpend` | web/lib/clickhouse.ts:1374-1456 | All rows and the bucket together are exactly the spend the direct filter lets through |
| `Accounts.TableIs` | web/lib/clickhouse.ts:1374-1456 | One row for each account but the empty one, dearest first, with its spend in each layer, its users and its spans from its own answer row; the bucket likewise, or zeros |
| `Accounts.ExcludedCoversTheRest` | web/lib/clickhouse.ts:1458-1490 | Compute plus egress is exactly what the direct filter leaves out |
| `Accounts.ExcludedFiguresAre` | web/lib/clickhouse.ts:1458-1490 | Compute and egress are each the spend of that layer |
| `Accounts.AllocateAccountCosts` | web/lib/accounts.ts:516-560 | The bucket joins last, and the real accounts are ranked in place: equal to the specification below |
| `Accounts.RenderedRowsReconcile` | web/lib/accounts.ts:508-573 | The rendered rows, bucket included, add up to the claimed tenant total; the accounts shown are those given, costliest first |
| `Accounts.SharesAreOwn` | web/lib/accounts.ts:523-545 | Each rendered row, bucket included, holds the share of the pot that the split gives its own account |
| `Accounts.BillIsConserved` | web/lib/accounts.ts:516-573 | End to end: for every list of spans and either rule, the rendered rows sum to the cost of every span |
| `Accounts.ParticipantsDistinct` | web/lib/accounts.ts:523-536 | The table never hands the allocator a repeated id |
| `Accounts.AllocationProducedExactly` | web/lib/accounts.ts:516-536 | An allocation comes back exactly when every participant's spend and the pot are safe integers |
| `Layers.DirectFilterMatchesMapping` | web/lib/clickhouse.ts:228-229 | The direct filter and the layer mapping agree: an operation passes the filter exactly when its layer is one of the four direct ones |
| `Layers.LayersAreNamed` | web/lib/clickhouse.ts:225-229 | Every operation falls in the layer named after it, and all others in llm |
| `Calendar.DayNumberOrder` | web/lib/forecast.ts:443-452 | Calendar order is day-number order |
| `Calendar.CivilOfDayNumber` | web/lib/forecast.ts:454-457 | The date of a day number is the date it came from |
| `Calendar.ParseOfFormat` | web/lib/forecast.ts:443-457 | Printing a day and parsing it gives the day |
| `Calendar.FormatOfParse` | web/lib/forecast.ts:443-457 | Parsing a date and printing it gives the same ten characters |
| `Calendar.StringOrderIsDayOrder` | web/lib/budgetVsActual.ts:243-252 | Comparing dates as strings compares the days they name |
| `Calendar.IsoDaysFrom` | web/lib/clickhouse.ts:1282-1289 | The loop yields exactly the consecutive days of the window |
| `Calendar.MonthBounds` | web/lib/budgetVsActual.ts:198-202 | A period starts on the first of the month, contains its day, ends on the last of the same month, and the next day is a first |
| `Calendar.MonthEndIsLastDay` | web/lib/budgetVsActual.ts:198-202 | Day 0 of the next month is the last day of this one, in leap years and across years |
| `Calendar.IsIsoDateExactly` | web/lib/filters.ts:91-99 | The pattern, the bounds and the round trip through the date constructor accept exactly the real days |
| `Calendar.WeekdayAdvances` | web/lib/forecast.ts:459-461 | The weekday advances by one modulo seven each day, before 1970 too |
| `Calendar.ContiguousExactly` | web/lib/budgetVsActual.ts:296-303 | A strictly increasing list of dates is flagged contiguous exactly when no date between its ends is missing |
| `SettledSeries.QuerySettledCostSeries` | web/lib/clickhouse.ts:1097-1238 | The assembler's loops over landing rows, day slots, cost rows and totals build the series the lemmas below are about |
| `SettledSeries.ReadLanding` | web/lib/clickhouse.ts:1159-1177 | Which connector layers landed on which day, which are used at all, and the newest reconciled day |
| `SettledSeries.RunningTotals.Add` | web/lib/clickhouse.ts:1061-1065 | `addDay` in place: one more day, its layers and its total |
| `SeriesTheorems.PointDescribesDay` | web/lib/clickhouse.ts:1180-1217 | Each day of the series holds what the scope spent that day, split over the layers with nothing left over, and a settled flag that depends on no scope, with the layers it waits on |
| `SeriesTheorems.SettledFlagIs` | web/lib/clickhouse.ts:1180-1193 | A day is settled exactly when it is over and every connector layer the tenant uses has landed for it |
| `SeriesTheorems.PeriodSettledIsSpend` | web/lib/clickhouse.ts:1207-1217 | Settled month-to-date, and each layer's part of it, is exactly the spend of the scope's spans on the settled days of the period |
| `SeriesTheorems.SeriesTotalsAre` | web/lib/clickhouse.ts:1207-1217 | The four totals from the spans: days counted, spend, and spend of every layer, on settled and on all days, of the window and of the period |
| `SeriesTheorems.SeriesReports` | web/lib/clickhouse.ts:1159-1238 | The layers settlement waits on and the rule, the settled days, the newest of them, and the newest reconciled day, from the spans |
| `Forecast.ForecastSpend` | web/lib/forecast.ts:221-359 | The engine's loops, map and running total equal the specification below, errors included |
| `Forecast.BreachFrom` | web/lib/forecast.ts:382-416 | The walk with its break equals the two first-crossing searches |
| `Forecast.DrawBurndown` | web/lib/forecast.ts:298-331 | The loop with its running total draws one point for each day of the period |
| `ForecastTheorems.ForecastAcceptsExactly` | web/lib/forecast.ts:221-245 | It throws exactly on an inverted period, unsafe money or a repeated day |
| `ForecastTheorems.RefusesBelowHistoryFloor` | web/lib/forecast.ts:255-284 | Below fourteen settled days every projected figure is absent and the answer is `cannot_project`; at fourteen there is one point for each day and the headline is the last; the days are counted and the budget passed on either way |
| `ForecastTheorems.ProjectedTotalIs` | web/lib/forecast.ts:286-336 | The projected total is spend to date plus, for each remaining day, that day's figure |
| `ForecastTheorems.EachDayIsMedian` | web/lib/forecast.ts:286-336 | Over the burn-down a caller receives, every remaining day adds the median of the window's amounts a whole number of weeks away, or of all of them when there is none; the window is any list of the newest min(28, history) settled days |
| `ForecastTheorems.TrailingIsNewest` | web/lib/forecast.ts:286-291 | The window the engine takes is such a list: every settled day outside it is earlier than all inside |
| `ForecastTheorems.NewestIsUnique` | web/lib/forecast.ts:286-291 | There is only one such list, up to order |
| `ForecastTheorems.MedianIs` | web/lib/forecast.ts:423-428 | The middle value, or the half sum of the middle two rounded half upwards, whatever order the values come in |
| `ForecastFigures.SpreadIs` | web/lib/forecast.ts:430-437 | The spread, characterised by the squares and the sum of the amounts |
| `ForecastFigures.EachDayIsBanded` | web/lib/forecast.ts:370-376 | The band of every remaining day is, to the nearest unit, 1.2816 spreads widened by one and a half times the part of the period ahead, times the root of the days ahead |
| `ForecastFigures.FiguresArePrinted` | web/lib/forecast.ts:286-359 | Window dates, weekday medians, spread and run rate, from the newest settled days alone |
| `ForecastTheorems.BreachIsFirstCrossing` | web/lib/forecast.ts:378-416 | The breach date is the first day the projection reaches the budget, `never` means no day does, and the earliest date along the high edge is the first of the whole period, exists whenever a breach does and is no later |
| `ForecastTheorems.BurndownIsOrdered` | web/lib/forecast.ts:298-331 | On every point min(point, spend to date) <= low <= point <= high, and the low edge of a remaining day is exactly point minus half-width, kept above spend to date unless the point is below it; the actual line covers exactly the elapsed days, has no band, and ends at spend to date |
| `ForecastTheorems.ConeWidensAhead` | web/lib/forecast.ts:370-376 | Within one forecast the half-width never decreases with days ahead |
| `ForecastTheorems.BandClosedExactly` | web/lib/forecast.ts:370-376 | The half-width is zero exactly when there is no spread or no day ahead |
| `ForecastTheorems.WidestFirstExactly` | web/lib/forecast.ts:370-376 | The first remaining day is banded at least as widely as all later ones exactly when there is no spread or at most one of them, or two that round alike (one micro-dollar of spread in a period of eight days) |
| `ForecastTheorems.TooltipHoldsExactly` | web/components/BurndownChart.tsx:175 | Read off the forecast: the band closes on the last date exactly when there is no spread or no day remains, and is widest just after the last settled day exactly in the cases above |
| `ForecastTheorems.TooltipCanFail` | web/components/BurndownChart.tsx:175 | A forecast of a thirty-day period whose last band is wider than its first and not closed |
| `ForecastTheorems.ConeNarrowsAsPeriodCloses` | web/lib/forecast.ts:370-376 | For a fixed deviation the end-of-period half-width never increases as the as-of day advances, and is zero once the period is closed |
| `ForecastTheorems.ForecastIgnoresOrder` | web/lib/forecast.ts:237-246 | Reordering the input days changes nothing in the forecast |
| `ForecastTheorems.MedianBetweenMiddles` | web/lib/forecast.ts:423-428 | The median lies between the two middle values |
| `ForecastTheorems.MedianResistsOneSpike` | web/lib/forecast.ts:289-290 | With three or more observations, replacing one by any amount keeps the median within the bounds of the others |
| `Budgets.SelectBudgetIs` | web/lib/budgetVsActual.ts:220-257 | A monthly budget of the scope that has started and not ended is found exactly when there is one, and it is the one that started last, ids deciding between equals |
| `Budgets.SelectBudgetIgnoresOrder` | web/lib/budgetVsActual.ts:222-228 | It does not flicker: the order of the list does not matter |
| `Burndown.BuildSection` | web/lib/burndown.ts:224-402 | The section, with the loop that writes shares and the in-place ranking, equals the specification below |
| `BurndownTheorems.BuiltSeriesIsWellBuilt` | web/lib/clickhouse.ts:1180-1236 | For every scope, day and answer of the reads: days increase, settled days are past ones at or before `settledThrough`, and the totals are those of the days |
| `BurndownTheorems.FedSpendIsPeriodSettled` | web/lib/burndown.ts:244-248 | Trimming the leading days drops only days that cost nothing, so what is fed adds up to settled month-to-date |
| `BurndownTheorems.PlottedActualIs` | web/lib/burndown.ts:356-361 | For any series, the last plotted actual is what was fed for the elapsed days of the period |
| `BurndownTheorems.ChartAlwaysReconciles` | web/lib/burndown.ts:391-400 | For every scope, every answer of the database and any budgets: if the section can be built, `chartReconciles` is true |
| `BurndownTheorems.ChartFlagExactly` | web/lib/burndown.ts:391-400 | For any series handed in, built or not, the flag is true exactly when nothing is drawn, or the fed days of the elapsed period add up to the printed total, or, where there is no actual line yet, no day of the period is settled |
| `BurndownTheorems.SectionBuiltExactly` | web/lib/burndown.ts:295-331 | On a built series nothing but unsafe money can make the engine throw |
| `BurndownTheorems.LayerStatusIsSectionStatus` | web/lib/burndown.ts:305-331 | A layer's status is always the section's |
| `BurndownTheorems.LayerRowsAre` | web/lib/burndown.ts:305-350 | Six layers once each, each with its own spend on the settled days of the period, adding up to the section's; ranked by projection and then by spend |
| `BurndownTheorems.SectionFiguresAre` | web/lib/burndown.ts:224-409 | Variance against the budget that applies, and the layers: each projected by a forecast of its own spend, its variance, its share, their sum, and the flag that holds exactly when they add up to the section's projection |
| `BurndownTheorems.WindowStatesTheInput` | web/lib/burndown.ts:257-275 | The stated window is what the engine used, the trimmed days cost nothing, and the excluded dollars are those of the excluded days |
| `WindowTheorems.WindowIs` | web/lib/burndown.ts:244-274 | What the window line says, from the days of the series: the days fed are the settled ones not before the first spend, their ends and whether a day between is missing, how many settled days were trimmed, exactly the unsettled days of the period, and the share of the spend they carry |
| `BudgetComparison.CoverageIs` | web/lib/budgetVsActual.ts:209-334 | Counted and withheld days together are the days of the period so far, the coverage is contiguous exactly when no withheld day lies inside it, each withheld day says why, and actual plus withheld is observed; each layer holds its own spend on the settled days |
| `BudgetComparison.ComparisonFiguresAre` | web/lib/budgetVsActual.ts:209-334 | Progress through the month, variance, share consumed and share withheld, and the same for every layer against its own budget, dearest first |
| `SpendScopes.ParseOfKey` | web/lib/spendScopes.ts:44-81 | A scope's key parses back to the scope, colons in the value included |
| `SpendScopes.KeyOfParse` | web/lib/spendScopes.ts:61-81 | Whatever parses is a scope whose key is the string that was parsed |
| `SpendScopes.ScopeKeyInjective` | web/lib/spendScopes.ts:43-46 | Different scopes have different keys |
| `ScopedForecast.RosterScopes` | web/lib/scopedForecast.ts:217-238 | The map keyed by string, filled in a loop and sorted, equals the roster below |
| `ScopedForecast.BuildScoped` | web/lib/scopedForecast.ts:328-438 | The assembly with its in-place sort and its pushed warnings equals the specification below |
| `ScopedForecast.WarnOfScopes` | web/lib/scopedForecast.ts:385-392 | One warning is pushed for each slice above the bill, in table order |
| `ScopedForecast.WarnOfKinds` | web/lib/scopedForecast.ts:393-401 | One warning is pushed for each kind summing above the bill |
| `ScopedTheorems.RosterIs` | web/lib/scopedForecast.ts:204-238 | The tenant first, then features, models and layers, each scope that carries a monthly budget in force once, by value within a kind |
| `ScopedTheorems.OfferedScopesHaveBudgets` | web/lib/scopedForecast.ts:213-216 | Every other scope on the roster has a budget of its own |
| `ScopedTheorems.SettledDaysShared` | web/lib/clickhouse.ts:1139-1193 | Every scope shares the same settled days, however its read came back |
| `ScopedTheorems.GroupsAre` | web/lib/scopedForecast.ts:364-382 | The groups are exactly the listed kinds; each counts every span its scopes claim once, and its residual is the spend no listed scope of the kind claims |
| `ScopedTheorems.ReconcilesExactly` | web/lib/scopedForecast.ts:384-401 | `spendReconciles` holds exactly when the rest of the bill is not negative for any listed scope and any listed kind |
| `CreditExample.CreditsCanBreakIt` | web/lib/scopedForecast.ts:14-19 | Two spans, one of them a credit, read as one snapshot on the day after: a slice exceeds the tenant and the flag is false |
| `ScopedTheorems.SpendAlwaysReconciles` | web/lib/scopedForecast.ts:14-19 | For spans without credits read as one snapshot: no warnings, every slice and every kind at most the tenant's figure, and group plus residual is the bill |
| `ScopedTheorems.RosterSectionsQualify` | web/app/api/cost/budget/route.ts:115-133 | The route's list of sections qualifies, whichever reads of other scopes failed |
| `ScopedTheorems.LinesInOrder` | web/lib/scopedForecast.ts:358-362 | One line per section, the tenant first, then by settled spend, labels in order between equals |
| `ScopedTheorems.SelectionIs` | web/lib/scopedForecast.ts:335-350 | The requested scope is shown exactly when it is on the roster, and a fallback is stated exactly when something asked for could not be shown, and names it |
| `StandingTheorems.UnknownExactly` | web/lib/scopedForecast.ts:240-254 | A scope is `unknown` exactly when its own history is below the floor |
| `StandingRules.LinesStand` | web/lib/scopedForecast.ts:240-317 | Every line of the table, read as one snapshot: already over exactly when the spend on the settled days exceeds the budget, a projected breach exactly when it does not and the last day of the burn-down does, no budget exactly when there is history and no budget, and the other figures of the line |
| `StandingRules.ReconciliationIs` | web/lib/scopedForecast.ts:364-417 | A warning for exactly the slices and kinds above the bill; budgets added up and counted kind by kind, never across kinds, and over-allocated exactly when some kind alone exceeds the tenant budget |
| `StandingTheorems.ProjectedBreachHasDate` | web/lib/scopedForecast.ts:268-277 | A scope projected to exceed its budget has outcome `breaches` and a date |
| `StandingTheorems.AlreadyOverHasDate` | web/lib/scopedForecast.ts:261-267 | So has a scope already over a budget that is not negative |
| `StandingTheorems.OnTrackWithDateExactly` | web/lib/scopedForecast.ts:268-282 | A scope is on track and has a breach date exactly when neither settled spend nor projection exceeds the budget and some day of the burn-down reaches it; without credits, exactly when the projection equals the budget |
| `StandingTheorems.LastPointIsHighest` | web/lib/forecast.ts:302-336 | Without credits the projected line never falls |
| `StandingExample.OnTrackWithDateHappens` | web/lib/scopedForecast.ts:268-282 | One dollar a day, a budget of thirty dollars, the first of June: on track, with a breach date |
| `Explore.CapGroups` | web/lib/explore.ts:203-259 | The in-place ranking, the reduces, the pushed fold row and the filters: counts and headline cover every group, the row after the last kept one is the fold exactly when something was cut, and every row is either named unknown or given a band; equal to the specification below |
| `Explore.PivotExploreDays` | web/lib/explore.ts:267-285 | The map of plain objects, filled row by row, equals the chart below, inherited names included; rows of unknown days are ignored |
| `ExploreTheorems.BarsAre` | web/lib/explore.ts:276-282 | The sums a day is meant to hold: a bar for exactly the names some row goes to, each the sum of those rows |
| `ExploreTheorems.PlottedBarsAre` | web/lib/explore.ts:276-282 | Bar by bar what the object holds: an ordinary name its sum, an inherited name text, `__proto__` nothing |
| `ExploreTheorems.PivotHoldsExactly` | web/lib/explore.ts:267-285 | The chart holds the sums it is meant to exactly when no row of a listed day goes to a bar named like an inherited property |
| `ExploreTheorems.DayTotalExactly` | web/lib/explore.ts:261-266 | A day's bars sum to that day's spend exactly when no row of the day goes to an inherited name other than `__proto__` and the rows that go there add up to nothing |
| `ExploreTheorems.PivotCanFail` | web/lib/explore.ts:281 | Two rows, one of a group called `constructor`, whose bar comes out as text |
| `ExploreTheorems.FoldCommutesWithPivot` | web/lib/clickhouse.ts:716-765 | With no kept group named like an inherited property, the chart from kept rows plus one summed row per day for the rest is the chart from the spans themselves, day by day, bar by bar |
| `ExploreTheorems.FoldCommutesWithSums` | web/lib/clickhouse.ts:716-765 | The sums meant to be drawn commute with the fold for any spans and any names |
| `ExploreTheorems.DayBarsAddUp` | web/lib/explore.ts:261-266 | Under the same condition each day's bars add up to that day's priced cost |
| `ExploreTheorems.BarsMatchTable` | web/lib/explore.ts:183-186 | Under the same condition, over the window the bars of any name add up to the table rows of that name, the fold included |
| `ExploreTheorems.BarsHaveBands` | web/lib/explore.ts:194-195 | No bar is drawn without a band in the legend, when no group is itself called like the fold |
| `ExploreTheorems.CapPreserves` | web/lib/explore.ts:183-186 | Span counts, unpriced counts and priced totals over the rows shown are those of all groups, whatever the cap |
| `Explore.KeptAndTail` | web/lib/explore.ts:207-223 | Kept and folded groups are all the groups, and every kept one ranks before every folded one |
| `ExploreTheorems.CapKeepsDearest` | web/lib/explore.ts:203-259 | The table shows the kept groups, unknown costs first and then dearest first, and one row with the sums of the rest; a folded known cost is at most every kept known one, and an unknown one is folded only when all kept are unknown |
| `ExploreTheorems.UnknownFoldedExactly` | web/lib/explore.ts:231-233 | An unknown-cost group is folded exactly when there are more of them than the cap, and a tail holding one is unpriced throughout except exactly when they are more than the cap and fewer than all the groups |
| `ExploreTheorems.FoldHidesUnknownExactly` | web/lib/explore.ts:188-193 | In that range, and only there, the fold shows a dollar figure over a tail with an unknown cost in it |
| `ExploreTheorems.FoldedIsUnnamed` | web/lib/explore.ts:188-193 | A folded group is named by no row of the table and not among the unknown costs |
| `ExploreTheorems.FoldCanHideUnknown` | web/lib/explore.ts:188-193 | Thirteen unknown groups and a priced one under the cap of twelve: the fold reads five dollars and hides the thirteenth |
| `RevenueTheorems.RevenueIs` | web/lib/clickhouse.ts:2991-3018 | One row per provider that served a user with an event; revenue is the sum over its distinct users of their net revenue, and `users` counts those with a revenue-typed event |
| `RevenueTheorems.RefundNetsOff` | web/lib/clickhouse.ts:2998-3001 | A refund lowers its own user's net revenue by its size, with whichever sign it was stored |
| `RevenueTheorems.SpansCannotInflate` | web/lib/clickhouse.ts:2957-2964 | The report is the same for any span list with the same users served by the same providers |
| `RevenueTheorems.DirectJoinIs` | web/lib/clickhouse.ts:2949-2955 | The direct join summed each user's net revenue once per span |
| `RevenueTheorems.DirectJoinExceeds` | web/lib/clickhouse.ts:2949-2964 | The two differ by exactly the extra spans, and agree when no user has more than one span with the provider |
| `Wilson.IntervalIsWilson` | web/lib/attribution.ts:171-188 | 0 <= lo <= p <= hi <= 1, the clamps never change an end, and a point solves Wilson's equation exactly when it is an end |
| `Wilson.NegativeZSwapsEnds` | web/lib/attribution.ts:171-188 | A negative z gives the same interval with its ends exchanged |
| `QueryCache.Cache.RowsPCached` | web/lib/clickhouse.ts:268-291 | A call, up to its await, takes exactly the `Call` step: hit, or issue, store and sweep |
| `QueryCache.Cache.OnRejected` | web/lib/clickhouse.ts:281-284 | The guarded eviction takes exactly the `HandleRejection` step |
| `QueryCache.Cache.ResetQueryCache` | web/lib/clickhouse.ts:263-266 | Clearing takes exactly the `Reset` step |
| `QueryCache.Sweep` | web/lib/clickhouse.ts:287-289 | The deleting loop leaves exactly the unexpired entries |
| `QueryCache.CopyRows` | web/lib/clickhouse.ts:291 | Each caller gets a fresh array with the shared rows |
| `QueryCache.ServesOnlyFreshMatches` | web/lib/clickhouse.ts:249-260 | In every run, each call waits on a query for its own key issued less than eight seconds before it, and a handled rejection is never in the map |
| `QueryCache.CallSendsExactly` | web/lib/clickhouse.ts:268-291 | A call is answered from the map exactly when the map holds an entry for its key less than 8000 ms old; otherwise one query is sent and stored, and above 256 entries exactly the expired others go |
| `QueryCache.ResetForgets` | web/lib/clickhouse.ts:263-266 | After clearing, the next call for any key sends a query of its own |
| `QueryCache.CallsShareOneQuery` | web/lib/clickhouse.ts:251-252 | Two calls within the window of the entry the first one waits on, with no eviction or reset between them, share one query |
| `QueryCache.EvictionIsGuarded` | web/lib/clickhouse.ts:281-284 | Handling a rejection never removes a newer promise for the key, and leaves the rejected one nowhere |
| `QueryCache.ErrorsAreNotReplayed` | web/lib/clickhouse.ts:256-257 | Once its rejection is handled, no later call of any run is given that promise |
| `QueryCache.MapStaysBounded` | web/lib/clickhouse.ts:285-290 | After every run the map holds at most 256 entries, or only answers of queries issued less than eight seconds before the newest one |
| `LivePoll.Poller.Effect` | web/lib/useLivePoll.ts:71-148 | Cleanup of the previous run, then the body of the effect, as one step |
| `LivePoll.Poller.FetchOnce` | web/lib/useLivePoll.ts:76-80 | The previous request is aborted and a new one becomes current |
| `LivePoll.Poller.OnTick` | web/lib/useLivePoll.ts:100-105 | A tick of the timer sends one request |
| `LivePoll.Poller.OnVisibilityChange` | web/lib/useLivePoll.ts:114-123 | Hiding stops the timer and aborts; showing fetches and restarts the timer |
| `LivePoll.Poller.OnContinue` | web/lib/useLivePoll.ts:81-97 | What runs after the awaits: dropped when cancelled, else data or error |
| `LivePoll.Poller.CleanUp` | web/lib/useLivePoll.ts:140-147 | The run is cancelled, its timer cleared and its request aborted |
| `LivePoll.OneRequestOneTimer` | web/lib/useLivePoll.ts:9-15 | In every run at most one request is outstanding, only in a visible polling tab, and the timer exists exactly while the enabled hook is mounted and visible |
| `LivePoll.DataOnlyMovesForward` | web/lib/useLivePoll.ts:13-15 | Data changes exactly when a successful answer of the current, uncancelled run is continued, and then to that answer, asked later than what it replaces; no other step touches it |
| `LivePoll.ErrorIsCurrent` | web/lib/useLivePoll.ts:88-96 | The error after any step: a failure of the current run sets it, a success of the current run clears it, nothing else changes it |
| `LivePoll.AsksExactly` | web/lib/useLivePoll.ts:76-123 | A tick, a return to view of an active hook and a later run of a visible tab each send exactly one request, for the current run and the only one outstanding; no other step sends any |
| `LivePoll.DataNeverGoesBack` | web/lib/useLivePoll.ts:81-88 | Over a whole run the shown data never goes back to an earlier request |
| `LivePoll.OldEndpointNeverApplied` | web/lib/useLivePoll.ts:140-148 | After an endpoint change no earlier request is ever applied: it changes neither the data nor the error, whether it succeeds or fails |
| `LivePoll.SilentWhenInactive` | web/lib/useLivePoll.ts:140-147 | Unmounted or disabled, the hook changes nothing it shows |
| `LivePoll.OnlyTheFirstRunWaits` | web/lib/useLivePoll.ts:65-69 | The first enabled run sends nothing, every later run of a visible tab fetches at once, and a disabled run does not use up the first |
| `LivePoll.GuardsExcludeNothing` | web/lib/useLivePoll.ts:71-148 | The machine's guards rule out no event that can happen |
| `Filters.ParseMulti` | web/lib/filters.ts:102-114 | The loop over set and list: trimmed, blanks dropped, repeats dropped, in order |
| `Filters.ParseFilters` | web/lib/filters.ts:122-150 | The assigned fields equal the specification below |
| `Filters.FiltersToSearchParams` | web/lib/filters.ts:157-183 | Deleting and setting on a copy gives the specified pairs and leaves the base alone |
| `FilterTheorems.MultiOfJoin` | web/lib/filters.ts:102-114 | A clean list joined and parsed again is itself |
| `FilterTheorems.SplitIs` | web/lib/filters.ts:102-114 | Splitting at commas loses nothing |
| `FilterTheorems.TrimIs` | web/lib/filters.ts:102-114 | Trimming takes white space off both ends and nothing else |
| `FilterTheorems.ParseNormalizes` | web/lib/filters.ts:116-150 | Whatever is parsed is a normalized state |
| `FilterTheorems.ParseReads` | web/lib/filters.ts:116-150 | What each field is read from: the first pair of its name, a known preset or dimension or the default, a custom range only when both dates are real and in order |
| `FilterTheorems.RoundTripsExactly` | web/lib/filters.ts:16-20 | Serialising over any base and parsing returns the state exactly when the state is normalized |
| `FilterTheorems.UnmanagedSurvive` | web/lib/filters.ts:11-15 | Parameters of other owners keep their values and their order, whatever state is written |
| `FilterTheorems.ParseIsStable` | web/lib/filters.ts:122-183 | For arbitrary input, parse after serialise after parse is parse |
| `FilterTheorems.DefaultIsClean` | web/lib/filters.ts:17-20 | Nothing managed is written exactly for the default state |
| `FilterTheorems.SettersDo` | web/lib/filters.ts:192-228 | Each setter sets its own field and keeps the others; toggling adds or removes exactly one value, and an invalid range changes nothing |
| `FilterTheorems.SharedLinkReconstructs` | web/lib/filters.ts:192-228 | A state reached from any link by any setter calls is reconstructed by the link it serialises to exactly when the values left selected are not blank and have no comma and no outer spaces, which toggling such values on guarantees |
| `FilterTheorems.CommaIsLost` | web/lib/filters.ts:209-220 | After toggling a value with a comma on, no link at all parses to the state |
| `DollarTheorems.RoundTripsExactly` | web/lib/budgetsShared.ts:107-142 | A printed amount parses back to itself exactly from 0 to 2^53 - 1 |
| `DollarTheorems.AcceptsExactly` | web/lib/budgetsShared.ts:94-126 | A string is accepted exactly when its cleaned form is a figure worth at most 2^53 - 1, and then the answer is its exact decimal value |
| `DollarTheorems.ReprintsCanonically` | web/lib/budgetsShared.ts:128-142 | An accepted string reprints canonically to the same amount, and unchanged exactly when it was canonical |
| `DollarTheorems.SameAmountExactly` | web/lib/budgetsShared.ts:99-101 | Two accepted strings parse alike exactly when they denote the same number |
| `DollarTheorems.DecorationIsIgnored` | web/lib/budgetsShared.ts:108-110 | White space around a figure and one dollar sign before it change nothing |
| `DollarTheorems.CommaIsIgnored` | web/lib/budgetsShared.ts:108-110 | A comma anywhere inside changes nothing |

## Left out

- Floating-point rounding: money is `int` and the variance, cone and Wilson arithmetic is `real`. A
  sum of JavaScript numbers is exact as long as it stays a safe integer. In `dollarsToMicro` the
  result of the source is also exact: up to 2^53 - 1 every intermediate value is representable, and
  beyond it rounding is monotone, so the safe-integer check still refuses.
- Date strings that name no day, and years below 0100: `Calendar.IsoDaysFrom` and the pipelines take
  valid days only, because engines differ on the rest. `isIsoDate` is modelled on all strings.
- ClickHouse itself: SQL, FINAL merging, decimal rounding in `micro()`, time zones and timestamps. A
  read is a grouped sum of integer micro-USD over one list of spans, and the reads a figure combines
  are assumed to see one snapshot of that list.
- `localeCompare`: any total preorder on labels and ids, as a parameter.
- Text built from an inherited property of the chart's objects: a bar keeps which member it started from
  and the amounts appended, not the characters. The inherited names are those of section 20.1.3 of
  ECMA-262; pages that extend `Object.prototype` are not modelled.
- Percent-encoding: a query string is its list of decoded pairs, so the copy of the base parameters
  through a string is the identity here.
- Reason sentences, warnings and labels as text: a fallback or warning is a constructor with the scope
  or kind it names. `allocationNote` and `noBudgetReason` are not modelled.
- `updatedAt` of the polling hook is not kept apart from `data`: the two are set together.
- Request failures inside the polling hook are one kind of answer; the network, React's batching of
  state and the double effects of its strict mode are not modelled.
- ScopedForecast.BuildScoped: a list with two tenant sections is sorted as a stable sort would; the
  source's comparator contradicts itself there. The roster never produces one.
- RevenueTheorems.RevenueIs: rows arrive already filtered by tenant, window, feature and revenue
  source; the policy is the list of positive value types.
- RevenueTheorems.DirectJoinIs: the replaced query is no longer in the repository; it is modelled from
  its description, with the same sign rule for refunds as the present one.
- An absent unpriced count of a group is the number 0, as the source reads it.
- `costTrend`, `clampWindowDays`, `rangeDays`, `periodProgress` as text, and the roll-ups of waste,
  unit economics, guardrails, onboarding and connectors would add only easy members.
- React components, charts as SVG, gateway and Clerk clients, environment reads and mock fixtures.
