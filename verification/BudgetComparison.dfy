/** Month-to-date actual against budget (budgetVsActual in web/lib/budgetVsActual.ts): which days the
    actual covers, which it withholds and why. */
module BudgetComparison {
  import opened Money
  import opened Results
  import opened Sums
  import opened Sorting
  import opened Layers
  import opened Calendar
  import opened SpendScopes
  import opened SettledSeries
  import opened SeriesTheorems
  import opened Budgets
  import opened Burndown
  import opened BurndownTheorems

  datatype PeriodProgress = PeriodProgress(start: int, end: int, today: int, daysInPeriod: int, daysElapsed: int)

  datatype CoverageWindow = CoverageWindow(
    from: Option<int>, through: Option<int>, dayCount: nat, contiguous: bool, rule: SettledRule, waitsOn: seq<Layer>)

  datatype ExcludedDay = ExcludedDay(date: int, observedMicroUsd: int, inProgress: bool, awaitingLayers: seq<Layer>)

  datatype LayerActual = LayerActual(
    layer: Layer, actualMicroUsd: int, shareOfActual: Option<real>, shareOfTenantBudget: Option<real>,
    budgetMicroUsd: Option<int>, varianceMicroUsd: Option<int>, variancePct: Option<real>)

  datatype Comparison = Comparison(
    period: PeriodProgress, actualMicroUsd: int, observedMicroUsd: int, coverage: CoverageWindow,
    excludedDays: seq<ExcludedDay>, excludedMicroUsd: int, excludedShare: Option<real>,
    budget: Option<AppliedBudget>, varianceMicroUsd: Option<int>, variancePct: Option<real>, consumed: Option<real>,
    layers: seq<LayerActual>)

  function Progress(periodStart: int, today: int): PeriodProgress
    requires InRange(periodStart)
  {
    var end := MonthEnd(periodStart);
    var inPeriod := end - periodStart + 1;
    PeriodProgress(periodStart, end, today, inPeriod, Min(Max(today - periodStart + 1, 0), inPeriod))
  }

  const Excluded: SettledDayPoint -> ExcludedDay :=
    (p: SettledDayPoint) => ExcludedDay(p.date, p.totalMicroUsd, p.inProgress, p.awaitingLayers)

  function Coverage(dates: seq<int>, series: SettledSpendSeries): CoverageWindow {
    if dates == [] then CoverageWindow(None, None, 0, true, series.rule, series.connectorLayers)
    else
      var from, through := dates[0], dates[|dates| - 1];
      CoverageWindow(Some(from), Some(through), |dates|, through - from + 1 == |dates|, series.rule,
                     series.connectorLayers)
  }

  function LayerActualOf(series: SettledSpendSeries, budgets: seq<TenantBudget>, budget: Option<AppliedBudget>,
                         idLe: (string, string) -> bool): Layer -> LayerActual {
    (layer: Layer) =>
      var actual, own := series.periodSettled.byLayer.At(layer),
        SelectBudget(budgets, "layer", LayerName(layer), series.windowEnd, idLe);
      LayerActual(layer, actual, Ratio(actual, series.periodSettled.totalMicroUsd),
        if budget.Some? then Ratio(actual, budget.value.amountMicroUsd) else None,
        if own.Some? then Some(own.value.amountMicro) else None,
        if own.Some? then Some(actual - own.value.amountMicro) else None,
        if own.Some? then Ratio(actual - own.value.amountMicro, own.value.amountMicro) else None)
  }

  predicate SpendsMore(a: LayerActual, b: LayerActual) {
    a.actualMicroUsd >= b.actualMicroUsd
  }

  function BudgetVsActual(series: SettledSpendSeries, budgets: seq<TenantBudget>,
                          idLe: (string, string) -> bool): Comparison
    requires InRange(series.periodStart)
  {
    var inPeriod := Filter(series.days, IsInPeriod);
    var actual, observed := series.periodSettled.totalMicroUsd, series.periodObserved.totalMicroUsd;
    var budget := Applied(SelectBudget(budgets, "tenant", "", series.windowEnd, idLe), series.periodStart);
    var variance := if budget.Some? then Some(actual - budget.value.amountMicroUsd) else None;
    Comparison(Progress(series.periodStart, series.windowEnd), actual, observed,
      Coverage(Map(Filter(inPeriod, IsSettled), DateOfPoint), series),
      Map(Filter(inPeriod, IsUnsettled), Excluded), observed - actual, Ratio(observed - actual, observed),
      budget, variance,
      if budget.Some? && variance.Some? then Ratio(variance.value, budget.value.amountMicroUsd) else None,
      if budget.Some? then Ratio(actual, budget.value.amountMicroUsd) else None,
      Sort(Map(LAYERS, LayerActualOf(series, budgets, budget, idLe)), SpendsMore))
  }

  // ---- Covered and withheld ----

  lemma {:induction false} FilterSuffix(points: seq<SettledDayPoint>, p: SettledDayPoint -> bool, k: nat)
    requires k <= |points| && forall j :: 0 <= j < |points| ==> (p(points[j]) <==> j >= k)
    ensures Filter(points, p) == points[k..]
  {
    if points != [] {
      FilterSuffix(points[1..], p, if k == 0 then 0 else k - 1);
      if k > 0 {
        assert points[1..][k - 1..] == points[k..];
      } else {
        assert points[0..] == [points[0]] + points[1..][0..];
      }
    }
  }

  lemma {:induction false} SettledOrNot(points: seq<SettledDayPoint>)
    ensures |Filter(points, IsSettled)| + |Filter(points, IsUnsettled)| == |points|
  {
    if points != [] {
      SettledOrNot(points[1..]);
    }
  }

  /** The period's days so far, one point each. */
  ghost predicate RunsThrough(days: seq<SettledDayPoint>, first: int, last: int) {
    |days| == last - first + 1 && forall k :: 0 <= k < |days| ==> days[k].date == first + k
  }

  lemma {:induction false} PeriodDaysRun(b: Bounds, rows: seq<CostRow>, landing: seq<LandingRow>)
    requires b.windowStart <= b.periodStart <= b.today && b.windowStart + b.windowDays == b.today + 1
    ensures RunsThrough(Filter(Points(b, rows, landing), IsInPeriod), b.periodStart, b.today)
  {
    var points, k := Points(b, rows, landing), b.periodStart - b.windowStart;
    forall j | 0 <= j < |points| ensures points[j].date == b.windowStart + j && (IsInPeriod(points[j]) <==> j >= k) {
      EmptyPointShape(b, landing, b.windowStart + j);
    }
    hide PointOn;
    FilterSuffix(points, IsInPeriod, k);
  }

  lemma {:induction false} RunIncreases(days: seq<SettledDayPoint>, first: int, last: int)
    requires RunsThrough(days, first, last)
    ensures DatesIncrease(days)
  {
  }

  lemma {:induction false} DatesOfIncreasing(days: seq<SettledDayPoint>)
    requires DatesIncrease(days)
    ensures StrictlyIncreasing(Map(days, DateOfPoint))
  {
  }

  lemma {:induction false} InDates(days: seq<SettledDayPoint>, p: SettledDayPoint -> bool, d: int)
    ensures d in Map(Filter(days, p), DateOfPoint) <==> exists x :: x in days && p(x) && x.date == d
  {
    InMap(Filter(days, p), DateOfPoint, d);
    if exists x :: x in days && p(x) && x.date == d {
      var x :| x in days && p(x) && x.date == d;
      assert x in Filter(days, p) && DateOfPoint(x) == d;
    }
    if d in Map(Filter(days, p), DateOfPoint) {
      var x :| x in Filter(days, p) && DateOfPoint(x) == d;
    }
  }

  lemma {:induction false} OneDayOfDate(days: seq<SettledDayPoint>, first: int, last: int, d: int)
    requires RunsThrough(days, first, last) && first <= d <= last
    ensures days[d - first] in days && forall y :: y in days && y.date == d ==> y == days[d - first]
  {
    forall y | y in days && y.date == d ensures y == days[d - first] {
      var j :| 0 <= j < |days| && days[j] == y;
    }
  }

  lemma {:induction false} EitherSettled(days: seq<SettledDayPoint>, first: int, last: int, d: int)
    requires RunsThrough(days, first, last) && first <= d <= last
    ensures d in Map(Filter(days, IsSettled), DateOfPoint) <==> d !in Map(Filter(days, IsUnsettled), DateOfPoint)
  {
    hide Map, Filter;
    InDates(days, IsSettled, d);
    InDates(days, IsUnsettled, d);
    OneDayOfDate(days, first, last, d);
    var x := days[d - first];
    assert x.date == d && (IsSettled(x) || IsUnsettled(x));
  }

  /** No day of the list lies from `from` through `through`. */
  ghost predicate NoneInside(days: seq<int>, from: int, through: int) {
    forall d :: d in days ==> d < from || d > through
  }

  lemma {:induction false} NoneWithheldBetween(counted: seq<int>, withheld: seq<int>)
    requires counted != [] && StrictlyIncreasing(counted)
    requires forall d :: counted[0] <= d <= counted[|counted| - 1] ==> (d in counted <==> d !in withheld)
    ensures counted[|counted| - 1] - counted[0] + 1 == |counted|
      <==> NoneInside(withheld, counted[0], counted[|counted| - 1])
  {
    var from, through := counted[0], counted[|counted| - 1];
    SpanOfIncreasing(counted);
    if through - from + 1 == |counted| {
      forall d | from <= d <= through ensures d in counted {
        assert counted[d - from] == d;
      }
    }
    if NoneInside(withheld, from, through) {
      forall d | from <= d <= through ensures d in counted {
        assert d !in withheld;
      }
      NoGapMeansSpan(counted);
    }
  }

  /** `contiguous` says exactly that no day between the first and the last counted one was withheld. */
  lemma {:induction false} ContiguousMeansNoneWithheld(days: seq<SettledDayPoint>, first: int, last: int)
    requires RunsThrough(days, first, last)
    ensures var counted, withheld := Map(Filter(days, IsSettled), DateOfPoint),
      Map(Filter(days, IsUnsettled), DateOfPoint);
      counted != [] ==>
        (counted[|counted| - 1] - counted[0] + 1 == |counted| <==>
          NoneInside(withheld, counted[0], counted[|counted| - 1]))
  {
    var settled := Filter(days, IsSettled);
    var counted, withheld := Map(settled, DateOfPoint), Map(Filter(days, IsUnsettled), DateOfPoint);
    RunIncreases(days, first, last);
    FilterIncreases(days, IsSettled);
    DatesOfIncreasing(settled);
    if counted != [] {
      forall i | 0 <= i < |settled| ensures first <= counted[i] <= last {
        assert settled[i] in settled;
        var j :| 0 <= j < |days| && days[j] == settled[i];
      }
      forall d | counted[0] <= d <= counted[|counted| - 1] ensures d in counted <==> d !in withheld {
        EitherSettled(days, first, last, d);
      }
      NoneWithheldBetween(counted, withheld);
    }
  }

  /** Why a day is withheld: it is today, or a connector layer the tenant uses has not landed for it. */
  ghost predicate Explained(e: ExcludedDay, today: int) {
    (e.inProgress <==> e.date == today) && (e.inProgress <==> e.awaitingLayers == [])
  }

  lemma {:induction false} UnsettledExplained(b: Bounds, rows: seq<CostRow>, landing: seq<LandingRow>,
                                              p: SettledDayPoint)
    requires p in Points(b, rows, landing) && !p.settled
    ensures Explained(Excluded(p), b.today)
  {
    var k :| 0 <= k < b.windowDays && Points(b, rows, landing)[k] == p;
  }

  const ExcludedDate: ExcludedDay -> int := (e: ExcludedDay) => e.date
  const ObservedOf: ExcludedDay -> int := (e: ExcludedDay) => e.observedMicroUsd
  const ActualOf: LayerActual -> int := (l: LayerActual) => l.actualMicroUsd
  const LayerNamed: LayerActual -> Layer := (l: LayerActual) => l.layer

  lemma {:induction false} ExcludedAddUp(series: SettledSpendSeries)
    requires WellBuilt(series)
    ensures SumBy(Map(Filter(Filter(series.days, IsInPeriod), IsUnsettled), Excluded), ObservedOf)
         == series.periodObserved.totalMicroUsd - series.periodSettled.totalMicroUsd
  {
    var inPeriod := Filter(series.days, IsInPeriod);
    var kept := Filter(inPeriod, IsUnsettled);
    ExcludedIsUnsettled(series);
    SumPointwise(Map(kept, Excluded), kept, ObservedOf, PointTotal);
    WhereIsFilter(inPeriod, IsUnsettled, PointTotal);
    WhereOfFilter(series.days, IsInPeriod, IsUnsettled, PointTotal);
    hide TotalsOver, Filter, Fed;
    WindowExcludes(series);
  }

  lemma {:induction false} WindowExcludes(series: SettledSpendSeries)
    ensures WindowOf(series).excludedMicroUsd == series.periodObserved.totalMicroUsd
      - series.periodSettled.totalMicroUsd
  {
  }

  lemma {:induction false} RankedActuals(lines: seq<LayerActual>)
    ensures var layers := Sort(lines, SpendsMore);
      && multiset(Map(layers, LayerNamed)) == multiset(Map(lines, LayerNamed))
      && SumBy(layers, ActualOf) == SumBy(lines, ActualOf) && SortedBy(layers, SpendsMore)
  {
    var layers := Sort(lines, SpendsMore);
    SortPermutes(lines, SpendsMore);
    SortSorts(lines, SpendsMore);
    hide Sort, SumBy;
    MapPermutes(layers, lines, LayerNamed);
    SumPermutation(layers, lines, ActualOf);
  }

  lemma {:induction false} LayerActualsAre(series: SettledSpendSeries, budgets: seq<TenantBudget>,
                                           budget: Option<AppliedBudget>, idLe: (string, string) -> bool)
    requires WellBuilt(series)
    ensures var layers := Sort(Map(LAYERS, LayerActualOf(series, budgets, budget, idLe)), SpendsMore);
      && multiset(Map(layers, LayerNamed)) == multiset(LAYERS)
      && SumBy(layers, ActualOf) == series.periodSettled.totalMicroUsd
      && SortedBy(layers, SpendsMore)
  {
    hide Sort, SelectBudget, Ratio, TotalsOver, SumBy, DatesIncrease;
    var lines := Map(LAYERS, LayerActualOf(series, budgets, budget, idLe));
    TotalsLayers(series.days, IsSettledInPeriod);
    SumPointwise(lines, LAYERS, ActualOf, AtLayer(series.periodSettled.byLayer));
    LayerTotal(series.periodSettled.byLayer);
    assert Map(lines, LayerNamed) == LAYERS;
    hide WellBuilt;
    RankedActuals(lines);
  }

  // ---- The figures ----

  /** One layer's row: its own spend on the settled days of the period, as a share of the whole and of the
      tenant budget, against its own budget if it has one. */
  ghost predicate LayerFigures(l: LayerActual, series: SettledSpendSeries, budgets: seq<TenantBudget>,
                               budget: Option<AppliedBudget>, idLe: (string, string) -> bool)
  {
    var own := SelectBudget(budgets, "layer", LayerName(l.layer), series.windowEnd, idLe);
    && l.actualMicroUsd == SumWhere(series.days, IsSettledInPeriod, LayerAmount(l.layer))
    && IsShare(l.shareOfActual, l.actualMicroUsd, Some(series.periodSettled.totalMicroUsd))
    && IsShare(l.shareOfTenantBudget, l.actualMicroUsd, AmountOf(budget))
    && l.budgetMicroUsd == (if own.Some? then Some(own.value.amountMicro) else None)
    && (l.varianceMicroUsd.Some? <==> own.Some?)
    && (own.Some? ==> l.varianceMicroUsd.value == l.actualMicroUsd - own.value.amountMicro)
    && IsShare(l.variancePct, if own.Some? then l.varianceMicroUsd.value else 0, l.budgetMicroUsd)
  }

  ghost predicate ComparisonFigures(c: Comparison, series: SettledSpendSeries, budgets: seq<TenantBudget>,
                                    idLe: (string, string) -> bool)
  {
    var chosen := SelectBudget(budgets, "tenant", "", series.windowEnd, idLe);
    && (c.budget.Some? <==> chosen.Some?)
    && (c.budget.Some? ==>
         && c.budget.value.budgetId == chosen.value.budgetId
         && c.budget.value.amountMicroUsd == chosen.value.amountMicro
         && (c.budget.value.coversPeriodToDate <==> chosen.value.startsOn <= series.periodStart))
    && (c.varianceMicroUsd.Some? <==> chosen.Some?)
    && (chosen.Some? ==> c.varianceMicroUsd.value == c.actualMicroUsd - chosen.value.amountMicro)
    && IsShare(c.variancePct, if chosen.Some? then c.varianceMicroUsd.value else 0, AmountOf(c.budget))
    && IsShare(c.consumed, c.actualMicroUsd, AmountOf(c.budget))
    && IsShare(c.excludedShare, c.excludedMicroUsd, Some(c.observedMicroUsd))
    && DearestFirst(c.layers) && forall l :: l in c.layers ==> LayerFigures(l, series, budgets, c.budget, idLe)
  }

  ghost predicate DearestFirst(layers: seq<LayerActual>) {
    forall i, j :: 0 <= i < j < |layers| ==> layers[i].actualMicroUsd >= layers[j].actualMicroUsd
  }

  lemma {:induction false} SpendsMoreSorts(lines: seq<LayerActual>)
    ensures DearestFirst(Sort(lines, SpendsMore))
  {
    SortSorts(lines, SpendsMore);
    var sorted := Sort(lines, SpendsMore);
    hide Sort;
    assert forall i, j :: 0 <= i < j < |sorted| ==> SpendsMore(sorted[i], sorted[j]);
  }

  lemma {:induction false} LayerHasFigures(series: SettledSpendSeries, budgets: seq<TenantBudget>,
                                           budget: Option<AppliedBudget>, idLe: (string, string) -> bool, layer: Layer)
    requires WellBuilt(series)
    ensures var l := LayerActualOf(series, budgets, budget, idLe)(layer);
      l.layer == layer && LayerFigures(l, series, budgets, budget, idLe)
  {
    TotalsByLayer(series.days, IsSettledInPeriod, layer);
    hide SelectBudget, Ratio, TotalsOver, SumWhere, IsShare, DatesIncrease;
    var actual := series.periodSettled.byLayer.At(layer);
    var own := SelectBudget(budgets, "layer", LayerName(layer), series.windowEnd, idLe);
    RatioIsShare(actual, series.periodSettled.totalMicroUsd);
    NothingShared(actual);
    NothingShared(0);
    if budget.Some? {
      RatioIsShare(actual, budget.value.amountMicroUsd);
    }
    if own.Some? {
      RatioIsShare(actual - own.value.amountMicro, own.value.amountMicro);
    }
  }

  lemma {:induction false} NothingShared(part: int)
    ensures IsShare(None, part, None)
  {
  }

  /** Every figure of the comparison beside its coverage. */
  lemma {:induction false} ComparisonFiguresAre(series: SettledSpendSeries, budgets: seq<TenantBudget>,
                                                idLe: (string, string) -> bool)
    requires WellBuilt(series) && InRange(series.periodStart)
    ensures ComparisonFigures(BudgetVsActual(series, budgets, idLe), series, budgets, idLe)
  {
    hide MonthEnd, InRange, Filter, SelectBudget, Ratio, LayerActualOf, Map, Coverage, Progress, Sort, LayerFigures,
         IsShare, WellBuilt, DearestFirst;
    var c := BudgetVsActual(series, budgets, idLe);
    var lines := Map(LAYERS, LayerActualOf(series, budgets, c.budget, idLe));
    SortMembers(lines, SpendsMore);
    SpendsMoreSorts(lines);
    forall l | l in lines ensures LayerFigures(l, series, budgets, c.budget, idLe) {
      var i :| 0 <= i < |lines| && lines[i] == l;
      LayerHasFigures(series, budgets, c.budget, idLe, LAYERS[i]);
    }
    RatioIsShare(c.excludedMicroUsd, c.observedMicroUsd);
    NothingShared(c.actualMicroUsd);
    NothingShared(0);
    if c.budget.Some? {
      RatioIsShare(c.actualMicroUsd, c.budget.value.amountMicroUsd);
      RatioIsShare(c.varianceMicroUsd.value, c.budget.value.amountMicroUsd);
    }
  }

  /** What the comparison claims about its days and dollars, for every scope, day and answer of the
      reads: counted and withheld days together are the days of the period so far; the coverage is
      contiguous exactly when no withheld day lies inside it; each withheld day says why; and actual
      plus withheld is observed, with the actual split over all six layers. */
  lemma {:induction false} CoverageIs(scope: ForecastScope, today: int, rows: seq<CostRow>, landing: seq<LandingRow>,
                                      budgets: seq<TenantBudget>, idLe: (string, string) -> bool)
    requires InRange(today)
    ensures var series := SeriesFrom(scope, BoundsAt(today), rows, landing);
      InRange(series.periodStart) &&
      var c := BudgetVsActual(series, budgets, idLe);
      && 1 <= c.period.daysElapsed <= c.period.daysInPeriod
      && c.coverage.dayCount + |c.excludedDays| == c.period.daysElapsed
      && (c.coverage.from.Some? ==>
           (c.coverage.contiguous <==>
             NoneInside(Map(c.excludedDays, ExcludedDate), c.coverage.from.value, c.coverage.through.value)))
      && (c.coverage.from.None? <==> c.coverage.dayCount == 0)
      && (forall e :: e in c.excludedDays ==> Explained(e, today))
      && SumBy(c.excludedDays, ObservedOf) == c.excludedMicroUsd == c.observedMicroUsd - c.actualMicroUsd
      && SumBy(c.layers, ActualOf) == c.actualMicroUsd && multiset(Map(c.layers, LayerNamed)) == multiset(LAYERS)
      && forall l :: l in c.layers ==>
           l.actualMicroUsd == SumWhere(series.days, IsSettledInPeriod, LayerAmount(l.layer))
  {
    hide WellBuilt, MonthEnd, InRange, Filter, TotalsOver, Sort, SumBy, SelectBudget, Ratio, Explained, PointOn,
         LayerActualOf, BudgetVsActual, NoneInside, Map;
    var b := BoundsAt(today);
    var series := SeriesFrom(scope, b, rows, landing);
    BuiltSeriesIsWellBuilt(scope, today, rows, landing);
    SeriesPeriod(scope, b, rows, landing);
    ComparisonShape(series, budgets, idLe);
    hide BoundsAt, SeriesFrom;
    PeriodDaysRun(b, rows, landing);
    CoverageOfDays(BudgetVsActual(series, budgets, idLe), series, Filter(series.days, IsInPeriod), b.periodStart,
                   today);
    ExcludedAddUp(series);
    LayerActualsAre(series, budgets,
                    Applied(SelectBudget(budgets, "tenant", "", series.windowEnd, idLe), series.periodStart), idLe);
    WithheldExplained(b, rows, landing);
    ComparisonFiguresAre(series, budgets, idLe);
    hide Coverage, RunsThrough, SumWhere, IsShare;
  }

  lemma {:induction false} CoverageOfDays(c: Comparison, series: SettledSpendSeries, days: seq<SettledDayPoint>,
                                          first: int, today: int)
    requires RunsThrough(days, first, today)
    requires c.coverage == Coverage(Map(Filter(days, IsSettled), DateOfPoint), series)
    requires c.excludedDays == Map(Filter(days, IsUnsettled), Excluded)
    ensures c.coverage.dayCount + |c.excludedDays| == today - first + 1
    ensures c.coverage.from.Some? ==>
      && c.coverage.through.Some?
      && (c.coverage.contiguous <==>
           NoneInside(Map(c.excludedDays, ExcludedDate), c.coverage.from.value, c.coverage.through.value))
    ensures c.coverage.from.None? <==> c.coverage.dayCount == 0
  {
    hide NoneInside, Filter;
    SettledOrNot(days);
    ContiguousMeansNoneWithheld(days, first, today);
    SameDates(Filter(days, IsUnsettled));
  }

  lemma {:induction false} WithheldExplained(b: Bounds, rows: seq<CostRow>, landing: seq<LandingRow>)
    ensures forall e :: e in Map(Filter(Filter(Points(b, rows, landing), IsInPeriod), IsUnsettled), Excluded) ==>
      Explained(e, b.today)
  {
    hide Explained, PointOn;
    var withheld := Filter(Filter(Points(b, rows, landing), IsInPeriod), IsUnsettled);
    forall i | 0 <= i < |withheld| ensures Explained(Excluded(withheld[i]), b.today) {
      assert withheld[i] in withheld;
      UnsettledExplained(b, rows, landing, withheld[i]);
    }
  }

  lemma {:induction false} ComparisonShape(series: SettledSpendSeries, budgets: seq<TenantBudget>,
                                           idLe: (string, string) -> bool)
    requires InRange(series.periodStart)
    ensures var c, days := BudgetVsActual(series, budgets, idLe), Filter(series.days, IsInPeriod);
      && c.period == Progress(series.periodStart, series.windowEnd)
      && c.actualMicroUsd == series.periodSettled.totalMicroUsd
           && c.observedMicroUsd == series.periodObserved.totalMicroUsd
      && c.excludedMicroUsd == c.observedMicroUsd - c.actualMicroUsd
      && c.coverage == Coverage(Map(Filter(days, IsSettled), DateOfPoint), series)
      && c.excludedDays == Map(Filter(days, IsUnsettled), Excluded)
      && c.budget == Applied(SelectBudget(budgets, "tenant", "", series.windowEnd, idLe), series.periodStart)
      && c.layers == Sort(Map(LAYERS, LayerActualOf(series, budgets, c.budget, idLe)), SpendsMore)
  {
    hide MonthEnd, InRange, Filter, Sort, SelectBudget, Ratio, LayerActualOf, Map, Coverage, Progress;
  }

  lemma {:induction false} SameDates(days: seq<SettledDayPoint>)
    ensures Map(Map(days, Excluded), ExcludedDate) == Map(days, DateOfPoint)
  {
  }
}
