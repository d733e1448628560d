/** What a scope's standing says about its breach date. The two use different comparisons
    (`breachFrom` asks whether the budget is reached, `standingOf` whether it is exceeded), so they
    agree in one direction only. */
module StandingTheorems {
  import opened Money
  import opened Results
  import opened Sums
  import opened Sorting
  import opened Calendar
  import opened SpendScopes
  import opened SettledSeries
  import opened SeriesTheorems
  import opened Forecast
  import opened ForecastTheorems
  import opened Budgets
  import opened Burndown
  import opened BurndownTheorems
  import opened ScopedForecast

  // ---- The forecast behind a section ----

  lemma {:induction false} BreachesWhenReached(points: seq<BurndownPoint>, budget: int, periodStart: int)
    ensures var r := Breach(points, Some(budget), periodStart);
      && (r.outcome == Breaches <==> exists k :: 0 <= k < |points| && points[k].projectedMicroUsd >= budget)
      && (r.outcome == Breaches ==> r.date.Some?)
      && (r.outcome == Breaches || r.outcome == Never)
  {
    var hit := FirstReach(points, ProjectedEdge, budget);
    if hit.None? {
      assert forall j :: 0 <= j < |points| ==> ProjectedEdge(points[j]) < budget;
    } else {
      assert ProjectedEdge(points[hit.value]) >= budget;
    }
  }

  /** A projected forecast is read off its own burn-down: the total is its last point and the breach is
      that of its points. */
  lemma {:induction false} ReadOffBurndown(input: ForecastInput, sqrt: real -> real)
    requires ForecastOf(input, sqrt).Ok? && ForecastOf(input, sqrt).value.status == Projected
    ensures var f := ForecastOf(input, sqrt).value;
      && f.burndown != [] && f.projectedMicroUsd == Some(f.burndown[|f.burndown| - 1].projectedMicroUsd)
      && f.breach == Breach(f.burndown, input.budgetMicroUsd, input.periodStart)
      && f.burndown == BasisOf(input, sqrt).Burndown(sqrt) && BasisOf(input, sqrt).Valid()
      && |Settled(input)| >= MIN_HISTORY_DAYS && AcceptableInput(input)
  {
    hide ForecastOf, Settled, BasisOf, Breach, Projection, AcceptableInput, Basis.Valid;
    ForecastAcceptsExactly(input, sqrt);
    RefusesBelowHistoryFloor(input, sqrt);
    SettledCount(input);
    Projects(input, sqrt);
    ProjectionReads(input, BasisOf(input, sqrt), |Settled(input)|, sqrt);
  }

  lemma {:induction false} ProjectionReads(input: ForecastInput, basis: Basis, historyDays: nat, sqrt: real -> real)
    requires basis.Valid()
    ensures var f := Projection(input, basis, historyDays, sqrt);
      && f.burndown != [] && f.burndown == basis.Burndown(sqrt)
      && f.projectedMicroUsd == Some(f.burndown[|f.burndown| - 1].projectedMicroUsd)
      && f.breach == Breach(f.burndown, input.budgetMicroUsd, input.periodStart)
  {
    hide Breach, NaiveRunRate, WeekdayMedian, Basis.Point;
  }

  lemma {:induction false} ActualIsProjected(b: Basis, sqrt: real -> real)
    requires b.Valid()
    ensures forall k :: 0 <= k < |b.Burndown(sqrt)| && b.Burndown(sqrt)[k].actualMicroUsd.Some? ==>
      b.Burndown(sqrt)[k].actualMicroUsd.value == b.Burndown(sqrt)[k].projectedMicroUsd
  {
    hide Basis.Cumulative, BandHalfWidth;
  }

  // ---- Without credits the projection only climbs ----

  lemma {:induction false} MedianAtLeast(values: seq<int>, lo: int)
    requires values != [] && forall v :: v in values ==> v >= lo
    ensures Median(values) >= lo
  {
    hide Median, Sort;
    MedianBetweenMiddles(values);
    SortMembers(values, AtMost);
    var sorted := Sort(values, AtMost);
    assert sorted[(|values| - 1) / 2] in sorted;
  }

  lemma {:induction false} ExpectedAtLeast(window: seq<DailySpend>, day: int, lo: int)
    requires window != [] && forall d :: d in window ==> d.microUsd >= lo
    ensures Expected(window, day) >= lo
  {
    var bucket, kept, all := Bucket(window, WeekdayOf(day)), Filter(window, OnWeekday(WeekdayOf(day))),
      Map(window, Amount);
    hide Median, WeekdayOf;
    forall i | 0 <= i < |kept| ensures bucket[i] >= lo {
      assert kept[i] in kept;
    }
    if bucket != [] {
      MedianAtLeast(bucket, lo);
    }
    MedianAtLeast(all, lo);
  }

  lemma {:induction false} AmountNotNegative(days: seq<DailySpend>, day: int)
    requires forall d :: d in days ==> d.microUsd >= 0
    ensures AmountOn(days, day) >= 0
  {
    if days != [] {
      AmountNotNegative(days[..|days| - 1], day);
    }
  }

  lemma {:induction false} CumulativeClimbs(b: Basis, day: int, later: int)
    requires b.Valid() && b.periodStart - 1 <= day <= later
    requires forall d :: d in b.window || d in b.inPeriod ==> d.microUsd >= 0
    ensures 0 <= b.Cumulative(day) <= b.Cumulative(later)
    decreases day - b.periodStart, later - day
  {
    hide Expected, AmountOn;
    if later > day {
      CumulativeClimbs(b, day, later - 1);
      ExpectedAtLeast(b.window, later, 0);
      AmountNotNegative(b.inPeriod, later);
    } else if day >= b.periodStart {
      CumulativeClimbs(b, day - 1, day - 1);
      ExpectedAtLeast(b.window, day, 0);
      AmountNotNegative(b.inPeriod, day);
    }
  }

  lemma {:induction false} BasisDaysAreInput(input: ForecastInput, sqrt: real -> real)
    ensures var b := BasisOf(input, sqrt); forall d :: d in b.window || d in b.inPeriod ==> d in input.days
  {
    SortMembers(Filter(input.days, UpTo(input.asOf)), EarlierFirst);
    hide Sort;
    var settled, window := Settled(input), Trailing(Settled(input));
    forall d | d in window ensures d in settled {
      var i :| 0 <= i < |window| && window[i] == d;
    }
  }

  /** Without credits the projected line never falls, so its last point is its highest. */
  lemma {:induction false} LastPointIsHighest(input: ForecastInput, sqrt: real -> real)
    requires ForecastOf(input, sqrt).Ok? && ForecastOf(input, sqrt).value.status == Projected
    requires forall d :: d in input.days ==> d.microUsd >= 0
    ensures var f := ForecastOf(input, sqrt).value;
      f.projectedMicroUsd.Some? && forall k :: 0 <= k < |f.burndown| ==>
        0 <= f.burndown[k].projectedMicroUsd <= f.projectedMicroUsd.value
  {
    ReadOffBurndown(input, sqrt);
    BasisDaysAreInput(input, sqrt);
    hide ForecastOf, BasisOf, Settled, Breach, Basis.Burndown, Basis.Valid, AcceptableInput;
    EndIsHighest(BasisOf(input, sqrt), sqrt);
  }

  lemma {:induction false} EndIsHighest(b: Basis, sqrt: real -> real)
    requires b.Valid() && forall d :: d in b.window || d in b.inPeriod ==> d.microUsd >= 0
    ensures var points := b.Burndown(sqrt);
      points != [] && forall k :: 0 <= k < |points| ==>
        0 <= points[k].projectedMicroUsd <= points[|points| - 1].projectedMicroUsd
  {
    hide Basis.Cumulative, Basis.Point;
    var points := b.Burndown(sqrt);
    PointProjects(b, b.periodEnd, sqrt);
    forall k | 0 <= k < |points| ensures 0 <= points[k].projectedMicroUsd <= points[|points| - 1].projectedMicroUsd {
      CumulativeClimbs(b, b.periodStart + k, b.periodEnd);
      PointProjects(b, b.periodStart + k, sqrt);
    }
  }

  // ---- Standings ----

  /** The section of a scope with this budget. */
  ghost predicate SectionWith(series: SettledSpendSeries, budgets: seq<TenantBudget>, scope: ForecastScope,
                              sqrt: real -> real, idLe: (string, string) -> bool, section: BurndownSection)
    requires InRange(series.periodStart)
  {
    WellBuilt(series) && series.windowEnd <= MonthEnd(series.periodStart)
      && SectionOf(series, budgets, scope, sqrt, idLe) == Ok(section)
  }

  lemma {:induction false} SectionForecast(series: SettledSpendSeries, budgets: seq<TenantBudget>, scope: ForecastScope,
                                           sqrt: real -> real, idLe: (string, string) -> bool, section: BurndownSection)
    requires InRange(series.periodStart) && SectionOf(series, budgets, scope, sqrt, idLe) == Ok(section)
    ensures ForecastFor(series, BudgetOf(section), sqrt) == Ok(section.forecast)
    ensures section.chartActualMicroUsd == ChartActual(section.forecast.burndown)
    ensures section.settledPeriodMicroUsd == series.periodSettled.totalMicroUsd
    ensures section.window == WindowOf(series)
    ensures section.chartReconciles ==
      ChartReconciles(section.forecast.burndown, Filter(Filter(series.days, IsInPeriod), IsSettled),
                      section.settledPeriodMicroUsd)
  {
    hide ForecastOf, LayerLines, Sort, Filter, WindowOf, ChartActual, ChartReconciles, SelectBudget, EngineInput;
    hide FirstProjected, LayerSum, Ratio, MonthEnd, InRange;
  }

  /** `unknown` is kept for one thing: fewer settled days of the scope's own history than the floor. */
  lemma {:induction false} UnknownExactly(series: SettledSpendSeries, budgets: seq<TenantBudget>, scope: ForecastScope,
                                          sqrt: real -> real, idLe: (string, string) -> bool, section: BurndownSection)
    requires InRange(series.periodStart) && SectionWith(series, budgets, scope, sqrt, idLe, section)
    ensures StandingOf(section, BudgetOf(section)) == Unknown <==> section.window.dayCount < section.window.requiredDays
  {
    hide ForecastOf, SectionOf, WellBuilt, Fed, MonthEnd, InRange, ChartReconciles, Filter, EngineInput, WindowOf;
    SectionForecast(series, budgets, scope, sqrt, idLe, section);
    WindowStatesTheInput(series, BudgetOf(section), sqrt);
    StatusByHistory(EngineInput(series, PointTotal, BudgetOf(section)), sqrt);
    RequiredDays(series);
  }

  lemma {:induction false} StatusByHistory(input: ForecastInput, sqrt: real -> real)
    requires ForecastOf(input, sqrt).Ok?
    ensures var f := ForecastOf(input, sqrt).value;
      f.status == InsufficientHistory <==> f.historyDays < MIN_HISTORY_DAYS
  {
    ForecastAcceptsExactly(input, sqrt);
    RefusesBelowHistoryFloor(input, sqrt);
  }

  lemma {:induction false} RequiredDays(series: SettledSpendSeries)
    ensures WindowOf(series).requiredDays == MIN_HISTORY_DAYS
  {
  }

  /** What holds of a projected section's figures and its burn-down points. */
  ghost predicate ReadsOff(section: BurndownSection, periodStart: int) {
    var f, points := section.forecast, section.forecast.burndown;
    && points != [] && f.projectedMicroUsd == Some(points[|points| - 1].projectedMicroUsd)
    && f.breach == Breach(points, BudgetOf(section), periodStart)
    && (forall k :: 0 <= k < |points| && points[k].actualMicroUsd.Some? ==>
         points[k].actualMicroUsd.value == points[k].projectedMicroUsd)
    && section.chartReconciles && section.chartActualMicroUsd == ChartActual(points)
    && (ChartActual(points).None? ==> section.settledPeriodMicroUsd == 0)
    && (ChartActual(points).Some? ==> section.settledPeriodMicroUsd == ChartActual(points).value)
  }

  lemma {:induction false} SectionReadsOff(series: SettledSpendSeries, budgets: seq<TenantBudget>, scope: ForecastScope,
                                           sqrt: real -> real, idLe: (string, string) -> bool, section: BurndownSection)
    requires InRange(series.periodStart) && SectionWith(series, budgets, scope, sqrt, idLe, section)
    requires section.forecast.status == Projected
    ensures ReadsOff(section, series.periodStart)
  {
    hide ForecastOf, SectionOf, Breach, WellBuilt, MonthEnd, InRange, Filter, TotalsOver, BasisOf, Settled, Fed,
         ChartActual, Map;
    hide Basis.Burndown, Basis.Valid, AcceptableInput, ForecastFor, WindowOf;
    SectionForecast(series, budgets, scope, sqrt, idLe, section);
    WellBuiltReconciles(series, budgets, scope, sqrt, idLe);
    NothingSettledInPeriod(series);
    SectionProjected(series, BudgetOf(section), sqrt, section.forecast);
  }

  lemma {:induction false} SectionProjected(series: SettledSpendSeries, budget: Option<int>, sqrt: real -> real,
                                            f: SpendForecast)
    requires InRange(series.periodStart) && ForecastFor(series, budget, sqrt) == Ok(f) && f.status == Projected
    ensures f.burndown != [] && f.projectedMicroUsd == Some(f.burndown[|f.burndown| - 1].projectedMicroUsd)
    ensures f.breach == Breach(f.burndown, budget, series.periodStart)
    ensures forall k :: 0 <= k < |f.burndown| && f.burndown[k].actualMicroUsd.Some? ==>
      f.burndown[k].actualMicroUsd.value == f.burndown[k].projectedMicroUsd
  {
    hide ForecastOf, Breach, MonthEnd, InRange, BasisOf, Settled, Fed, Map, Basis.Burndown, AcceptableInput,
         Basis.Valid;
    var input := EngineInput(series, PointTotal, budget);
    ReadOffBurndown(input, sqrt);
    ActualIsProjected(BasisOf(input, sqrt), sqrt);
  }

  /** A scope that is projected to exceed its budget has a breach date. */
  lemma {:induction false} ProjectedBreachHasDate(series: SettledSpendSeries, budgets: seq<TenantBudget>,
                                                  scope: ForecastScope, sqrt: real -> real,
                                                  idLe: (string, string) -> bool, section: BurndownSection)
    requires InRange(series.periodStart) && SectionWith(series, budgets, scope, sqrt, idLe, section)
    requires StandingOf(section, BudgetOf(section)) == ProjectedBreach
    ensures section.forecast.breach.outcome == Breaches && section.forecast.breach.date.Some?
  {
    hide SectionWith, ReadsOff, StandingOf, InRange;
    StatusIsOne(section);
    SectionReadsOff(series, budgets, scope, sqrt, idLe, section);
    OverBudgetIsReached(section, series.periodStart);
  }

  lemma {:induction false} OverBudgetIsReached(section: BurndownSection, periodStart: int)
    requires ReadsOff(section, periodStart)
    requires var standing := StandingOf(section, BudgetOf(section));
      standing == ProjectedBreach || (standing == AlreadyOver && BudgetOf(section).value >= 0)
    ensures section.forecast.breach.outcome == Breaches && section.forecast.breach.date.Some?
  {
    var points := section.forecast.burndown;
    BreachesWhenReached(points, BudgetOf(section).value, periodStart);
    PlottedIsPoint(points);
    hide Breach, ChartActual;
    if StandingOf(section, BudgetOf(section)) == ProjectedBreach {
      assert points[|points| - 1].projectedMicroUsd >= BudgetOf(section).value;
    }
  }

  lemma {:induction false} StatusIsOne(section: BurndownSection)
    requires StandingOf(section, BudgetOf(section)) != Unknown
    ensures section.forecast.status == Projected
  {
  }

  /** So has a scope already over a budget that is not negative: the day it went over is on the chart. */
  lemma {:induction false} AlreadyOverHasDate(series: SettledSpendSeries, budgets: seq<TenantBudget>,
                                              scope: ForecastScope, sqrt: real -> real, idLe: (string, string) -> bool,
                                              section: BurndownSection)
    requires InRange(series.periodStart) && SectionWith(series, budgets, scope, sqrt, idLe, section)
    requires StandingOf(section, BudgetOf(section)) == AlreadyOver && BudgetOf(section).value >= 0
    ensures section.forecast.breach.outcome == Breaches && section.forecast.breach.date.Some?
  {
    hide SectionWith, ReadsOff, StandingOf, InRange;
    StatusIsOne(section);
    SectionReadsOff(series, budgets, scope, sqrt, idLe, section);
    OverBudgetIsReached(section, series.periodStart);
  }

  lemma {:induction false} PlottedIsPoint(points: seq<BurndownPoint>)
    ensures ChartActual(points).Some? ==> exists k ::
      0 <= k < |points| && points[k].actualMicroUsd == ChartActual(points)
  {
    var plotted := Filter(points, HasActual);
    if plotted != [] {
      assert plotted[|plotted| - 1] in plotted;
      var k :| 0 <= k < |points| && points[k] == plotted[|plotted| - 1];
    }
  }

  lemma {:induction false} NothingSettledInPeriod(series: SettledSpendSeries)
    requires WellBuilt(series)
    ensures Filter(Filter(series.days, IsInPeriod), IsSettled) == [] ==> series.periodSettled.totalMicroUsd == 0
  {
    hide DatesIncrease;
    TotalsSum(series.days, IsSettledInPeriod);
    var both := Filter(Filter(series.days, IsInPeriod), IsSettled);
    assert forall p :: p in both <==> p in series.days && p.inPeriod && p.settled;
    if both == [] {
      WhereNone(series.days, IsSettledInPeriod, PointTotal);
    }
  }

  ghost predicate ReachedSomeDay(points: seq<BurndownPoint>, budget: int) {
    exists k :: 0 <= k < |points| && points[k].projectedMicroUsd >= budget
  }

  /** The converse fails, and this is exactly when. A scope is called on track and yet given a breach
      date precisely when neither its settled spend nor its projection exceeds the budget and some day
      of the burn-down reaches it: the line lands on the budget, or credits bring it back down. Without
      credits only the first can happen, to the micro-dollar. */
  lemma {:induction false} OnTrackWithDateExactly(series: SettledSpendSeries, budgets: seq<TenantBudget>,
                                                  scope: ForecastScope, sqrt: real -> real,
                                                  idLe: (string, string) -> bool, section: BurndownSection)
    requires InRange(series.periodStart) && SectionWith(series, budgets, scope, sqrt, idLe, section)
    requires BudgetOf(section).Some? && section.forecast.status == Projected
    ensures section.forecast.projectedMicroUsd.Some?
    ensures var f, budget := section.forecast, BudgetOf(section).value;
      && (f.breach.outcome == Breaches <==> ReachedSomeDay(f.burndown, budget))
      && (StandingOf(section, Some(budget)) == OnTrack && f.breach.outcome == Breaches <==>
           section.settledPeriodMicroUsd <= budget && f.projectedMicroUsd.value <= budget
             && ReachedSomeDay(f.burndown, budget))
      && ((forall p :: p in series.days ==> p.totalMicroUsd >= 0) ==>
           (StandingOf(section, Some(budget)) == OnTrack && f.breach.outcome == Breaches <==>
             f.projectedMicroUsd.value == budget))
  {
    SectionReadsOff(series, budgets, scope, sqrt, idLe, section);
    hide SectionWith, ReadsOff, InRange, StandingOf, ReachedSomeDay;
    OnTrackReachedExactly(section, series.periodStart);
    if forall p :: p in series.days ==> p.totalMicroUsd >= 0 {
      SectionLastIsHighest(series, budgets, scope, sqrt, idLe, section);
      LandsOnBudget(section, series.periodStart);
    }
  }

  lemma {:induction false} OnTrackReachedExactly(section: BurndownSection, periodStart: int)
    requires ReadsOff(section, periodStart) && BudgetOf(section).Some? && section.forecast.status == Projected
    ensures section.forecast.projectedMicroUsd.Some?
    ensures var f, budget := section.forecast, BudgetOf(section).value;
      && (f.breach.outcome == Breaches <==> ReachedSomeDay(f.burndown, budget))
      && (StandingOf(section, Some(budget)) == OnTrack && f.breach.outcome == Breaches <==>
           section.settledPeriodMicroUsd <= budget && f.projectedMicroUsd.value <= budget
             && ReachedSomeDay(f.burndown, budget))
  {
    hide Breach, ChartActual;
    BreachesWhenReached(section.forecast.burndown, BudgetOf(section).value, periodStart);
  }

  lemma {:induction false} LandsOnBudget(section: BurndownSection, periodStart: int)
    requires ReadsOff(section, periodStart) && BudgetOf(section).Some?
    requires var f := section.forecast;
      f.projectedMicroUsd.Some? && forall k :: 0 <= k < |f.burndown| ==>
        0 <= f.burndown[k].projectedMicroUsd <= f.projectedMicroUsd.value
    ensures var f, budget := section.forecast, BudgetOf(section).value;
      section.settledPeriodMicroUsd <= budget && f.projectedMicroUsd.value <= budget
        && ReachedSomeDay(f.burndown, budget)
      <==> f.projectedMicroUsd.value == budget
  {
    var points := section.forecast.burndown;
    PlottedIsPoint(points);
    hide Breach, ChartActual;
    assert points[|points| - 1].projectedMicroUsd == section.forecast.projectedMicroUsd.value;
    assert section.settledPeriodMicroUsd <= section.forecast.projectedMicroUsd.value;
  }

  lemma {:induction false} SectionLastIsHighest(series: SettledSpendSeries, budgets: seq<TenantBudget>,
                                                scope: ForecastScope, sqrt: real -> real,
                                                idLe: (string, string) -> bool, section: BurndownSection)
    requires InRange(series.periodStart) && SectionWith(series, budgets, scope, sqrt, idLe, section)
    requires forall p :: p in series.days ==> p.totalMicroUsd >= 0
    requires section.forecast.status == Projected
    ensures var f := section.forecast;
      f.projectedMicroUsd.Some? && forall k :: 0 <= k < |f.burndown| ==>
        0 <= f.burndown[k].projectedMicroUsd <= f.projectedMicroUsd.value
  {
    SectionForecast(series, budgets, scope, sqrt, idLe, section);
    FedNotNegative(series, PointTotal);
    hide ForecastOf, SectionOf, WellBuilt, MonthEnd, InRange, Fed, Map;
    LastPointIsHighest(EngineInput(series, PointTotal, BudgetOf(section)), sqrt);
  }

  lemma {:induction false} FedNotNegative(series: SettledSpendSeries, amount: SettledDayPoint -> int)
    requires forall p :: p in series.days ==> amount(p) >= 0
    ensures forall d :: d in Map(Fed(series.days), ToDaily(amount)) ==> d.microUsd >= 0
  {
    var fed := Fed(series.days);
    forall i | 0 <= i < |fed| ensures amount(fed[i]) >= 0 {
      assert fed[i] in fed;
    }
  }
}
