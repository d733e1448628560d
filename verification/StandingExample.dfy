/** A tenant that spends one dollar a day, on the first of June 2026, with a budget of thirty dollars:
    on track, and yet with a breach date. */
module StandingExample {
  import opened Money
  import opened Results
  import opened Sums
  import opened Sorting
  import opened Layers
  import opened Calendar
  import opened SpendScopes
  import opened SettledSeries
  import opened Forecast
  import opened ForecastTheorems
  import opened Budgets
  import opened Burndown
  import opened BurndownTheorems
  import opened ScopedForecast
  import opened StandingTheorems

  const FIRST_OF_JUNE := 20605
  const DOLLAR := 1_000_000
  const HISTORY: nat := 29

  /** What the two reads answer: one row of model spend for each of the days before today. */
  const STEADY_ROWS: seq<CostRow> := seq(HISTORY, i => CostRow(FIRST_OF_JUNE - HISTORY + i, Llm, DOLLAR))
  const STEADY_LANDING: seq<LandingRow> := seq(HISTORY, i => LandingRow(FIRST_OF_JUNE - HISTORY + i, 0, 0, 0))

  const JUNE_BUDGET := TenantBudget("june", "month", 30 * DOLLAR, "tenant", "", FIRST_OF_JUNE, None)

  lemma {:induction false} JuneDays()
    ensures DayNumber(Civil(2026, 6, 1)) == FIRST_OF_JUNE && DateUTC(2026, 6, 0) == FIRST_OF_JUNE + 29
  {
    hide CivilOf;
    assert MonthOffset(2026, 6) == 151 && MonthOffset(2026, 7) == 181;
    DayZeroIsLastDay(2026, 6);
  }

  lemma {:induction false} June()
    ensures InRange(FIRST_OF_JUNE) && MonthStart(FIRST_OF_JUNE) == FIRST_OF_JUNE
      && MonthEnd(FIRST_OF_JUNE) == FIRST_OF_JUNE + 29
    ensures BoundsAt(FIRST_OF_JUNE) == Bounds(FIRST_OF_JUNE - HISTORY, FIRST_OF_JUNE, FIRST_OF_JUNE, HISTORY + 1)
  {
    JuneDays();
    CivilOfDayNumber(Civil(2026, 6, 1));
    hide CivilOf, InRange, DateUTC, DayNumber;
  }

  const STEADY: SettledSpendSeries :=
    SeriesFrom(TENANT_SCOPE, Bounds(FIRST_OF_JUNE - HISTORY, FIRST_OF_JUNE, FIRST_OF_JUNE, HISTORY + 1), STEADY_ROWS,
               STEADY_LANDING)

  // ---- The days ----

  lemma {:induction false} NoConnectors()
    ensures ConnectorLayersIn(STEADY_LANDING) == []
  {
    FilterNone(CONNECTOR_LAYERS, Uses(STEADY_LANDING));
  }

  lemma {:induction false} SpendOn(k: nat)
    requires k <= HISTORY
    ensures var day, spent := FIRST_OF_JUNE - HISTORY + k, if k < HISTORY then DOLLAR else 0;
      RowsOn(STEADY_ROWS, day) == spent && LayersOn(STEADY_ROWS, day) == SpendByLayer(spent, 0, 0, 0, 0, 0)
  {
    var rows, day := STEADY_ROWS, FIRST_OF_JUNE - HISTORY + k;
    var onDay := InGroup(Everything, RowDay, day);
    forall layer ensures layer != Llm ==> RowsAt(rows, day, layer) == 0 {
      if layer != Llm {
        WhereNone(rows, InGroup(onDay, RowLayer, layer), RowCost);
      }
    }
    if k < HISTORY {
      WhereOnly(rows, onDay, RowCost, k);
      WhereOnly(rows, InGroup(onDay, RowLayer, Llm), RowCost, k);
    } else {
      WhereNone(rows, onDay, RowCost);
      WhereNone(rows, InGroup(onDay, RowLayer, Llm), RowCost);
    }
  }

  lemma {:induction false} SteadyDays()
    ensures |STEADY.days| == HISTORY + 1
    ensures forall k :: 0 <= k <= HISTORY ==>
      var p, spent := STEADY.days[k], if k < HISTORY then DOLLAR else 0;
      && p.date == FIRST_OF_JUNE - HISTORY + k && (p.settled <==> k < HISTORY)
      && p.totalMicroUsd == spent && p.byLayer == SpendByLayer(spent, 0, 0, 0, 0, 0)
  {
    NoConnectors();
    hide RowsOn, LayersOn, ConnectorLayersIn, WeekdayOf;
    forall k | 0 <= k <= HISTORY
      ensures var p, spent := STEADY.days[k], if k < HISTORY then DOLLAR else 0;
        && p.date == FIRST_OF_JUNE - HISTORY + k && (p.settled <==> k < HISTORY)
        && p.totalMicroUsd == spent && p.byLayer == SpendByLayer(spent, 0, 0, 0, 0, 0)
    {
      SpendOn(k);
    }
  }

  lemma {:induction false} SteadyFed()
    ensures Fed(STEADY.days) == STEADY.days[..HISTORY] && Filter(STEADY.days, IsSettled) == STEADY.days[..HISTORY]
    ensures STEADY.settledThrough == Some(FIRST_OF_JUNE - 1)
  {
    SteadyDays();
    FedIsPrefix(STEADY.days, HISTORY);
    hide Filter, Fed, RowsOn, LayersOn, ConnectorLayersIn, WeekdayOf, PointOn, TotalsOver, ReconciledThrough;
    var baseline := Map(Filter(STEADY.days, IsSettled), DateOfPoint);
    assert baseline[HISTORY - 1] == STEADY.days[HISTORY - 1].date;
  }

  lemma {:induction false} SettledArePrefix(days: seq<SettledDayPoint>, n: nat)
    requires n <= |days| && forall k :: 0 <= k < |days| ==> (days[k].settled <==> k < n)
    ensures Filter(days, IsSettled) == days[..n]
  {
    hide Filter;
    var past, rest := days[..n], days[n..];
    forall p | p in past ensures IsSettled(p) {
      var k :| 0 <= k < n && past[k] == p;
    }
    forall p | p in rest ensures !IsSettled(p) {
      var k :| 0 <= k < |rest| && rest[k] == p;
    }
    assert days == past + rest;
    FilterConcat(past, rest, IsSettled);
    FilterAll(past, IsSettled);
    FilterNone(rest, IsSettled);
  }

  lemma {:induction false} FedIsPrefix(days: seq<SettledDayPoint>, n: nat)
    requires 0 < n <= |days| && forall k :: 0 <= k < |days| ==> (days[k].settled <==> k < n)
    requires days[0].totalMicroUsd != 0 && forall k :: 0 <= k < n ==> days[k].date >= days[0].date
    ensures Fed(days) == days[..n] && Filter(days, IsSettled) == days[..n]
  {
    hide Filter;
    SettledArePrefix(days, n);
    forall p | p in days[..n] ensures OnOrAfter(days[0].date)(p) {
      var k :| 0 <= k < n && days[k] == p;
    }
    FilterAll(days[..n], OnOrAfter(days[0].date));
  }

  // ---- The forecast ----

  lemma {:induction false} MedianOfConstant(values: seq<int>, c: int)
    requires values != [] && forall v :: v in values ==> v == c
    ensures Median(values) == c
  {
    hide Median, Sort;
    MedianBetweenMiddles(values);
    SortMembers(values, AtMost);
    var sorted := Sort(values, AtMost);
    assert sorted[(|values| - 1) / 2] in sorted && sorted[|values| / 2] in sorted;
  }

  lemma {:induction false} ExpectedOfConstant(window: seq<DailySpend>, day: int, c: int)
    requires window != [] && forall d :: d in window ==> d.microUsd == c
    ensures Expected(window, day) == c
  {
    var kept := Filter(window, OnWeekday(WeekdayOf(day)));
    var bucket, all := Bucket(window, WeekdayOf(day)), Map(window, Amount);
    hide Median, WeekdayOf, Filter;
    forall i | 0 <= i < |kept| ensures bucket[i] == c {
      assert kept[i] in kept;
    }
    if bucket != [] {
      MedianOfConstant(bucket, c);
    }
    MedianOfConstant(all, c);
  }

  lemma {:induction false} ExpectedTotalOfConstant(window: seq<DailySpend>, first: int, last: int, c: int)
    requires window != [] && forall d :: d in window ==> d.microUsd == c
    requires first <= last + 1
    ensures ExpectedTotal(window, first, last) == c * (last - first + 1)
    decreases last - first
  {
    hide Expected;
    if first <= last {
      ExpectedTotalOfConstant(window, first, last - 1, c);
      ExpectedOfConstant(window, last, c);
    }
  }

  lemma {:induction false} SteadyPeriod()
    ensures STEADY.periodStart == FIRST_OF_JUNE && InRange(STEADY.periodStart)
      && MonthEnd(STEADY.periodStart) == FIRST_OF_JUNE + 29
  {
    hide Points, InRange, MonthEnd;
    June();
  }

  lemma {:induction false} SteadyAmounts()
    ensures |Fed(STEADY.days)| == HISTORY
    ensures forall i :: 0 <= i < HISTORY ==>
      Fed(STEADY.days)[i].totalMicroUsd == DOLLAR && Fed(STEADY.days)[i].date < FIRST_OF_JUNE
  {
    hide Fed, SeriesFrom;
    SteadyFed();
    SteadyDays();
  }

  lemma {:induction false} SteadyInput(budget: Option<int>)
    requires InRange(STEADY.periodStart)
    ensures var input := EngineInput(STEADY, PointTotal, budget);
      && |input.days| == HISTORY && input.asOf == FIRST_OF_JUNE - 1 && input.periodStart == FIRST_OF_JUNE
      && input.periodEnd == FIRST_OF_JUNE + 29
      && forall d :: d in input.days ==> d.microUsd == DOLLAR && d.date < FIRST_OF_JUNE
  {
    hide Fed, MonthEnd, InRange, SeriesFrom;
    SteadyPeriod();
    SteadyFed();
    SteadyAmounts();
  }

  lemma {:induction false} AllSettled(input: ForecastInput)
    requires forall d :: d in input.days ==> d.date <= input.asOf
    ensures |Settled(input)| == |input.days| && forall d :: d in Trailing(Settled(input)) ==> d in input.days
    ensures input.days != [] ==> Trailing(Settled(input)) != []
  {
    FilterAll(input.days, UpTo(input.asOf));
    SettledCount(input);
    SortMembers(Filter(input.days, UpTo(input.asOf)), EarlierFirst);
    hide Sort, Filter;
    var settled := Settled(input);
    assert forall d :: d in Trailing(settled) ==> d in settled;
  }

  lemma {:induction false} NothingSpentYet(input: ForecastInput, sqrt: real -> real)
    requires forall d :: d in input.days ==> d.date < input.periodStart
    ensures BasisOf(input, sqrt).SpendToDate() == 0
  {
    SpendToDateIs(input, sqrt);
    WhereNone(input.days, Within(input.periodStart, Min(input.asOf, input.periodEnd)), Amount);
  }

  lemma {:induction false} ForecastOfSteady(input: ForecastInput, sqrt: real -> real)
    requires ForecastOf(input, sqrt).Ok? && |input.days| >= MIN_HISTORY_DAYS
    requires forall d :: d in input.days ==> d.microUsd == DOLLAR && d.date <= input.asOf
    requires input.asOf < input.periodStart <= input.periodEnd
    ensures var f := ForecastOf(input, sqrt).value;
      && f.status == Projected
      && f.projectedMicroUsd == Some(DOLLAR * (input.periodEnd - input.periodStart + 1))
  {
    hide ForecastOf, BasisOf, ExpectedTotal, AcceptableInput, Settled, Trailing, Basis.Burndown, PeriodDays;
    ForecastAcceptsExactly(input, sqrt);
    AllSettled(input);
    SettledCount(input);
    RefusesBelowHistoryFloor(input, sqrt);
    ProjectedTotalIs(input, sqrt);
    ForecastShows(input, sqrt);
    NothingSpentYet(input, sqrt);
    ExpectedTotalOfConstant(Trailing(Settled(input)), input.periodStart, input.periodEnd, DOLLAR);
  }

  // ---- On track, with a date ----

  lemma {:induction false} SteadySection(sqrt: real -> real, idLe: (string, string) -> bool)
    requires InRange(FIRST_OF_JUNE)
    ensures STEADY.periodStart == STEADY.windowEnd == FIRST_OF_JUNE
    ensures SectionOf(STEADY, [JUNE_BUDGET], TENANT_SCOPE, sqrt, idLe).Ok?
    ensures BudgetOf(SectionOf(STEADY, [JUNE_BUDGET], TENANT_SCOPE, sqrt, idLe).value) == Some(30 * DOLLAR)
  {
    SteadyFed();
    SteadyDays();
    BudgetChosen(idLe);
    hide SelectBudget, Fed, Filter, ForecastOf, LayerLines, InRange, Compose, SectionOf, RowsOn, LayersOn,
         ConnectorLayersIn;
    forall p | p in Fed(STEADY.days)
      ensures IsSafeInteger(p.totalMicroUsd) && forall l :: l in LAYERS ==> IsSafeInteger(p.byLayer.At(l))
    {
      var k :| 0 <= k < HISTORY && STEADY.days[k] == p;
    }
    SectionBuiltExactly(STEADY, [JUNE_BUDGET], TENANT_SCOPE, sqrt, idLe);
    SectionBudget(STEADY, [JUNE_BUDGET], TENANT_SCOPE, sqrt, idLe);
  }

  lemma {:induction false} SectionBudget(series: SettledSpendSeries, budgets: seq<TenantBudget>, scope: ForecastScope,
                                         sqrt: real -> real, idLe: (string, string) -> bool)
    requires InRange(series.periodStart) && SectionOf(series, budgets, scope, sqrt, idLe).Ok?
    ensures BudgetOf(SectionOf(series, budgets, scope, sqrt, idLe).value)
         == AmountOf(Applied(SelectBudget(budgets, KindName(scope.kind), scope.value, series.windowEnd, idLe),
                             series.periodStart))
  {
    hide ForecastOf, LayerLines, Sort, Filter, WindowOf, ChartActual, ChartReconciles, SelectBudget, EngineInput;
    hide FirstProjected, LayerSum, Ratio, MonthEnd, InRange;
  }

  lemma {:induction false} BudgetChosen(idLe: (string, string) -> bool)
    ensures SelectBudget([JUNE_BUDGET], "tenant", "", FIRST_OF_JUNE, idLe) == Some(JUNE_BUDGET)
  {
    FilterAll([JUNE_BUDGET], Covers("tenant", "", FIRST_OF_JUNE));
    SortOfSorted([JUNE_BUDGET], NewestFirst(idLe));
  }

  lemma {:induction false} LandingIsOnTrack(series: SettledSpendSeries, budgets: seq<TenantBudget>,
                                            scope: ForecastScope, sqrt: real -> real, idLe: (string, string) -> bool,
                                            section: BurndownSection)
    requires InRange(series.periodStart) && SectionWith(series, budgets, scope, sqrt, idLe, section)
    requires BudgetOf(section).Some? && forall p :: p in series.days ==> p.totalMicroUsd >= 0
    requires var f := ForecastFor(series, BudgetOf(section), sqrt);
      f.Ok? ==> f.value.status == Projected && f.value.projectedMicroUsd == BudgetOf(section)
    ensures StandingOf(section, BudgetOf(section)) == OnTrack
    ensures section.forecast.breach.outcome == Breaches && section.forecast.projectedMicroUsd == BudgetOf(section)
  {
    hide SectionOf, ForecastOf, WellBuilt, StandingOf, ReachedSomeDay, InRange, MonthEnd, ForecastFor;
    SectionForecast(series, budgets, scope, sqrt, idLe, section);
    OnTrackWithDateExactly(series, budgets, scope, sqrt, idLe, section);
  }

  lemma {:induction false} SteadyIsWellBuilt()
    ensures WellBuilt(STEADY)
  {
    hide WellBuilt, SeriesFrom;
    June();
    BuiltSeriesIsWellBuilt(TENANT_SCOPE, FIRST_OF_JUNE, STEADY_ROWS, STEADY_LANDING);
  }

  lemma {:induction false} SteadyHasNoCredit()
    ensures forall p :: p in STEADY.days ==> p.totalMicroUsd >= 0
  {
    SteadyDays();
    hide SeriesFrom;
    forall p | p in STEADY.days ensures p.totalMicroUsd >= 0 {
      var k :| 0 <= k <= HISTORY && STEADY.days[k] == p;
    }
  }

  lemma {:induction false} SteadyForecast(sqrt: real -> real)
    requires InRange(STEADY.periodStart)
    ensures var f := ForecastFor(STEADY, Some(30 * DOLLAR), sqrt);
      f.Ok? ==> f.value.status == Projected && f.value.projectedMicroUsd == Some(30 * DOLLAR)
  {
    hide ForecastOf, InRange, SeriesFrom, EngineInput;
    SteadyInput(Some(30 * DOLLAR));
    if ForecastFor(STEADY, Some(30 * DOLLAR), sqrt).Ok? {
      ForecastOfSteady(EngineInput(STEADY, PointTotal, Some(30 * DOLLAR)), sqrt);
    }
  }

  /** The chart gives a breach date, and the roster calls the same scope on track. */
  lemma {:induction false} OnTrackWithDateHappens(sqrt: real -> real, idLe: (string, string) -> bool)
    ensures InRange(STEADY.periodStart) && SectionOf(STEADY, [JUNE_BUDGET], TENANT_SCOPE, sqrt, idLe).Ok?
    ensures var section := SectionOf(STEADY, [JUNE_BUDGET], TENANT_SCOPE, sqrt, idLe).value;
      && StandingOf(section, BudgetOf(section)) == OnTrack
      && section.forecast.breach.outcome == Breaches && section.forecast.projectedMicroUsd == BudgetOf(section)
           == Some(30 * DOLLAR)
  {
    hide SectionOf, InRange, MonthEnd, WellBuilt, StandingOf, SeriesFrom, ForecastFor;
    June();
    SteadySection(sqrt, idLe);
    SteadyIsWellBuilt();
    SteadyHasNoCredit();
    SteadyForecast(sqrt);
    LandingIsOnTrack(STEADY, [JUNE_BUDGET], TENANT_SCOPE, sqrt, idLe,
                     SectionOf(STEADY, [JUNE_BUDGET], TENANT_SCOPE, sqrt, idLe).value);
  }
}
