/** The burn-down view model (web/lib/burndown.ts): the forecasting engine fed with the settled days of
    one scope, and the chart checked against the figure printed beside it. */
module Burndown {
  import opened Money
  import opened Results
  import opened Sums
  import opened Sorting
  import opened Layers
  import opened Calendar
  import opened SpendScopes
  import opened SettledSeries
  import opened Forecast
  import opened Budgets

  datatype AppliedBudget = AppliedBudget(
    budgetId: string, amountMicroUsd: int, startsOn: int, endsOn: Option<int>, coversPeriodToDate: bool)

  datatype ForecastInputWindow = ForecastInputWindow(
    first: Option<int>, through: Option<int>, dayCount: nat, contiguous: bool, rule: SettledRule,
    waitsOn: seq<Layer>, excludedDays: seq<int>, excludedMicroUsd: int, excludedShareOfObserved: Option<real>,
    requiredDays: nat, trimmedLeadingDays: int, firstObservedDay: Option<int>)

  datatype LayerProjection = LayerProjection(
    layer: Layer, settledMicroUsd: int, projectedMicroUsd: Option<int>, shareOfProjected: Option<real>,
    budgetMicroUsd: Option<int>, varianceMicroUsd: Option<int>, status: ForecastStatus)

  datatype BurndownSection = BurndownSection(
    scope: ForecastScope, periodStart: int, periodEnd: int, asOf: Option<int>, today: int,
    forecast: SpendForecast, budget: Option<AppliedBudget>,
    varianceMicroUsd: Option<int>, variancePct: Option<real>, window: ForecastInputWindow,
    layers: seq<LayerProjection>, layerSumMicroUsd: Option<int>, layersReconcile: bool, largestLayer: Option<Layer>,
    chartActualMicroUsd: Option<int>, settledPeriodMicroUsd: int, chartReconciles: bool)

  /** A zero denominator is undefined, not infinite and not zero. */
  function Ratio(part: int, whole: int): Option<real> {
    if whole == 0 then None else Some(part as real / whole as real)
  }

  // ---- What the engine is fed ----

  function FirstObserved(days: seq<SettledDayPoint>): Option<int> {
    if days == [] then None
    else if days[0].totalMicroUsd != 0 then Some(days[0].date)
    else FirstObserved(days[1..])
  }

  function OnOrAfter(day: int): SettledDayPoint -> bool {
    (p: SettledDayPoint) => p.date >= day
  }

  /** Settled days from the first day the scope was seen spending anything. */
  function Fed(days: seq<SettledDayPoint>): seq<SettledDayPoint> {
    var first := FirstObserved(days);
    if first.None? then [] else Filter(Filter(days, IsSettled), OnOrAfter(first.value))
  }

  function ToDaily(amount: SettledDayPoint -> int): SettledDayPoint -> DailySpend {
    (p: SettledDayPoint) => DailySpend(p.date, amount(p))
  }

  function EngineInput(series: SettledSpendSeries, amount: SettledDayPoint -> int, budget: Option<int>): ForecastInput
    requires InRange(series.periodStart)
  {
    ForecastInput(Map(Fed(series.days), ToDaily(amount)), series.periodStart, MonthEnd(series.periodStart),
      if series.settledThrough.Some? then series.settledThrough.value else series.windowEnd, budget)
  }

  // ---- The layer split ----

  /** A layer budget is compared only tenant-wide: off it, it is somebody else's number. */
  function LayerBudget(budgets: seq<TenantBudget>, scope: ForecastScope, layer: Layer, today: int,
                       idLe: (string, string) -> bool): Option<int>
  {
    if scope.kind != TenantKind then None
    else
      var b := SelectBudget(budgets, "layer", LayerName(layer), today, idLe);
      if b.Some? then Some(b.value.amountMicro) else None
  }

  function LayerLine(series: SettledSpendSeries, layer: Layer, f: SpendForecast, budget: Option<int>): LayerProjection {
    var projected := f.projectedMicroUsd;
    LayerProjection(layer, series.periodSettled.byLayer.At(layer), projected, None, budget,
      if budget.Some? && projected.Some? then Some(projected.value - budget.value) else None, f.status)
  }

  function LayerLines(series: SettledSpendSeries, layers: seq<Layer>, budgets: seq<TenantBudget>, scope: ForecastScope,
                      sqrt: real -> real, idLe: (string, string) -> bool): Result<seq<LayerProjection>, ForecastError>
    requires InRange(series.periodStart)
  {
    if layers == [] then Ok([])
    else
      var before := LayerLines(series, layers[..|layers| - 1], budgets, scope, sqrt, idLe);
      var layer := layers[|layers| - 1];
      if before.Err? then before
      else
        var f := ForecastOf(EngineInput(series, LayerAmount(layer), None), sqrt);
        if f.Err? then Err(f.error)
        else Ok(before.value + [LayerLine(series, layer, f.value,
                                          LayerBudget(budgets, scope, layer, series.windowEnd, idLe))])
  }

  const IsProjected: LayerProjection -> bool := (l: LayerProjection) => l.projectedMicroUsd.Some?
  const ProjectedOf: LayerProjection -> int := (l: LayerProjection) =>
    if l.projectedMicroUsd.Some? then l.projectedMicroUsd.value else 0

  function LayerSum(lines: seq<LayerProjection>): Option<int> {
    var projected := Filter(lines, IsProjected);
    if projected == [] then None else Some(SumBy(projected, ProjectedOf))
  }

  function WithShare(sum: Option<int>): LayerProjection -> LayerProjection {
    (l: LayerProjection) => l.(shareOfProjected :=
      if l.projectedMicroUsd.None? || sum.None? then None else Ratio(l.projectedMicroUsd.value, sum.value))
  }

  function RankOf(l: LayerProjection): int {
    if l.projectedMicroUsd.Some? then l.projectedMicroUsd.value else -1
  }

  predicate LargerFirst(a: LayerProjection, b: LayerProjection) {
    RankOf(a) > RankOf(b) || (RankOf(a) == RankOf(b) && a.settledMicroUsd >= b.settledMicroUsd)
  }

  function FirstProjected(lines: seq<LayerProjection>): Option<Layer> {
    if lines == [] then None
    else if lines[0].projectedMicroUsd.Some? then Some(lines[0].layer)
    else FirstProjected(lines[1..])
  }

  // ---- The chart ----

  const HasActual: BurndownPoint -> bool := (p: BurndownPoint) => p.actualMicroUsd.Some?

  /** What the chart plots as spent: the last point that carries an actual. */
  function ChartActual(points: seq<BurndownPoint>): Option<int> {
    var plotted := Filter(points, HasActual);
    if plotted == [] then None else plotted[|plotted| - 1].actualMicroUsd
  }

  function ChartReconciles(points: seq<BurndownPoint>, settledInPeriod: seq<SettledDayPoint>,
                           settledPeriod: int): bool {
    if points == [] then true
    else
      var actual := ChartActual(points);
      if actual.None? then settledInPeriod == [] else actual.value == settledPeriod
  }

  // ---- The section, as a function of its input ----

  const IsUnsettled: SettledDayPoint -> bool := (p: SettledDayPoint) => !p.settled

  function WindowOf(series: SettledSpendSeries): ForecastInputWindow {
    var fed := Fed(series.days);
    var excluded := series.periodObserved.totalMicroUsd - series.periodSettled.totalMicroUsd;
    ForecastInputWindow(
      if fed == [] then None else Some(fed[0].date),
      if fed == [] then None else Some(fed[|fed| - 1].date), |fed|,
      fed == [] || fed[|fed| - 1].date - fed[0].date + 1 == |fed|,
      series.rule, series.connectorLayers,
      Map(Filter(Filter(series.days, IsInPeriod), IsUnsettled), DateOfPoint),
      excluded, Ratio(excluded, series.periodObserved.totalMicroUsd), MIN_HISTORY_DAYS,
      |Filter(series.days, IsSettled)| - |fed|, FirstObserved(series.days))
  }

  function Applied(b: Option<TenantBudget>, periodStart: int): Option<AppliedBudget> {
    if b.None? then None
    else Some(AppliedBudget(b.value.budgetId, b.value.amountMicro, b.value.startsOn, b.value.endsOn,
                            b.value.startsOn <= periodStart))
  }

  function AmountOf(b: Option<AppliedBudget>): Option<int> {
    if b.None? then None else Some(b.value.amountMicroUsd)
  }

  function SectionOf(series: SettledSpendSeries, budgets: seq<TenantBudget>, scope: ForecastScope, sqrt: real -> real,
                     idLe: (string, string) -> bool): Result<BurndownSection, ForecastError>
    requires InRange(series.periodStart)
  {
    var budget := Applied(SelectBudget(budgets, KindName(scope.kind), scope.value, series.windowEnd, idLe),
                          series.periodStart);
    var forecast := ForecastOf(EngineInput(series, PointTotal, AmountOf(budget)), sqrt);
    if forecast.Err? then Err(forecast.error)
    else
      var lines := LayerLines(series, LAYERS, budgets, scope, sqrt, idLe);
      if lines.Err? then Err(lines.error)
      else Ok(Compose(series, scope, budget, forecast.value, lines.value))
  }

  function Compose(series: SettledSpendSeries, scope: ForecastScope, budget: Option<AppliedBudget>,
                   forecast: SpendForecast, lines: seq<LayerProjection>): BurndownSection
    requires InRange(series.periodStart)
  {
    var sum := LayerSum(lines);
    var ranked := Sort(Map(lines, WithShare(sum)), LargerFirst);
    var projected, settled := forecast.projectedMicroUsd, series.periodSettled.totalMicroUsd;
    var variance := if budget.Some? && projected.Some? then Some(projected.value - budget.value.amountMicroUsd)
      else None;
    BurndownSection(scope, series.periodStart, MonthEnd(series.periodStart), series.settledThrough, series.windowEnd,
      forecast, budget, variance,
      if budget.Some? && variance.Some? then Ratio(variance.value, budget.value.amountMicroUsd) else None,
      WindowOf(series), ranked, sum,
      projected.None? || sum.None? || sum.value == projected.value,
      FirstProjected(ranked), ChartActual(forecast.burndown), settled,
      ChartReconciles(forecast.burndown, Filter(Filter(series.days, IsInPeriod), IsSettled), settled))
  }

  // ---- The section, as its statements run ----

  method ProjectLayers(series: SettledSpendSeries, budgets: seq<TenantBudget>, scope: ForecastScope, sqrt: real -> real,
                       idLe: (string, string) -> bool)
      returns (r: Result<seq<LayerProjection>, ForecastError>)
    requires InRange(series.periodStart)
    ensures r == LayerLines(series, LAYERS, budgets, scope, sqrt, idLe)
  {
    hide ForecastOf, EngineInput, LayerLine, LayerBudget;
    var lines: seq<LayerProjection> := [];
    for i := 0 to |LAYERS|
      invariant LayerLines(series, LAYERS[..i], budgets, scope, sqrt, idLe) == Ok(lines)
    {
      var layer := LAYERS[i];
      assert LAYERS[..i + 1][..i] == LAYERS[..i];
      var f := ForecastSpend(EngineInput(series, LayerAmount(layer), None), sqrt);
      if f.Err? {
        ErrorSpreads(series, i + 1, budgets, scope, sqrt, idLe);
        return Err(f.error);
      }
      lines := lines + [LayerLine(series, layer, f.value, LayerBudget(budgets, scope, layer, series.windowEnd, idLe))];
    }
    assert LAYERS[..|LAYERS|] == LAYERS;
    r := Ok(lines);
  }

  /** Once one layer's forecast has thrown, so has the whole split. */
  lemma {:induction false} ErrorSpreads(series: SettledSpendSeries, i: nat, budgets: seq<TenantBudget>,
                                        scope: ForecastScope, sqrt: real -> real, idLe: (string, string) -> bool)
    requires InRange(series.periodStart) && i <= |LAYERS|
    requires LayerLines(series, LAYERS[..i], budgets, scope, sqrt, idLe).Err?
    ensures LayerLines(series, LAYERS, budgets, scope, sqrt, idLe)
      == LayerLines(series, LAYERS[..i], budgets, scope, sqrt, idLe)
    decreases |LAYERS| - i
  {
    hide ForecastOf, EngineInput, LayerLine, LayerBudget;
    if i < |LAYERS| {
      assert LAYERS[..i + 1][..i] == LAYERS[..i];
      ErrorSpreads(series, i + 1, budgets, scope, sqrt, idLe);
    } else {
      assert LAYERS[..i] == LAYERS;
    }
  }

  method BuildSection(series: SettledSpendSeries, budgets: seq<TenantBudget>, scope: ForecastScope, sqrt: real -> real,
                      idLe: (string, string) -> bool)
      returns (r: Result<BurndownSection, ForecastError>)
    requires InRange(series.periodStart)
    ensures r == SectionOf(series, budgets, scope, sqrt, idLe)
  {
    hide ForecastOf, EngineInput, LayerLines, Sort, Filter, WindowOf, ChartActual, ChartReconciles, SelectBudget;
    hide FirstProjected, LayerSum, Ratio, MonthEnd, InRange, Applied;
    var budget := Applied(SelectBudget(budgets, KindName(scope.kind), scope.value, series.windowEnd, idLe),
                          series.periodStart);
    var forecast := ForecastSpend(EngineInput(series, PointTotal, AmountOf(budget)), sqrt);
    if forecast.Err? {
      return Err(forecast.error);
    }
    var lines := ProjectLayers(series, budgets, scope, sqrt, idLe);
    if lines.Err? {
      return Err(lines.error);
    }
    var layers := lines.value;
    var layerSumMicroUsd := LayerSum(layers);
    for i := 0 to |layers|
      invariant |layers| == |lines.value|
      invariant forall k :: 0 <= k < i ==> layers[k] == WithShare(layerSumMicroUsd)(lines.value[k])
      invariant forall k :: i <= k < |layers| ==> layers[k] == lines.value[k]
    {
      var l := layers[i];
      layers := layers[i := l.(shareOfProjected :=
        if l.projectedMicroUsd.None? || layerSumMicroUsd.None? then None
        else Ratio(l.projectedMicroUsd.value, layerSumMicroUsd.value))];
    }
    assert layers == Map(lines.value, WithShare(layerSumMicroUsd));
    var ranked := ArrayOf(layers);
    SortInPlace(ranked, LargerFirst);
    layers := ranked[..];
    var f, settledPeriodMicroUsd := forecast.value, series.periodSettled.totalMicroUsd;
    var variance := if budget.Some? && f.projectedMicroUsd.Some?
      then Some(f.projectedMicroUsd.value - budget.value.amountMicroUsd) else None;
    r := Ok(BurndownSection(scope, series.periodStart, MonthEnd(series.periodStart), series.settledThrough,
                            series.windowEnd,
      f, budget, variance,
      if budget.Some? && variance.Some? then Ratio(variance.value, budget.value.amountMicroUsd) else None,
      WindowOf(series), layers, layerSumMicroUsd,
      f.projectedMicroUsd.None? || layerSumMicroUsd.None? || layerSumMicroUsd.value == f.projectedMicroUsd.value,
      FirstProjected(layers), ChartActual(f.burndown), settledPeriodMicroUsd,
      ChartReconciles(f.burndown, Filter(Filter(series.days, IsInPeriod), IsSettled), settledPeriodMicroUsd)));
  }
}
