/** The burn-down's claims about itself: the chart agrees with the figure beside it for every series
    the assembler can build, and what its layer rows can and cannot say. */
module BurndownTheorems {
  import opened Money
  import opened Results
  import opened Sums
  import opened Sorting
  import opened Layers
  import opened Calendar
  import opened SpendScopes
  import opened SettledSeries
  import opened SeriesTheorems
  import opened Forecast
  import opened ForecastTheorems
  import opened Budgets
  import opened Burndown

  // ---- The plotted actual ----

  lemma {:induction false} PlottedPrefix(points: seq<BurndownPoint>, k: nat)
    requires k <= |points|
    requires forall j :: 0 <= j < |points| ==> (points[j].actualMicroUsd.Some? <==> j < k)
    ensures Filter(points, HasActual) == points[..k]
  {
    if points != [] {
      if k > 0 {
        PlottedPrefix(points[1..], k - 1);
        assert points[..k] == [points[0]] + points[1..][..k - 1];
      } else {
        PlottedPrefix(points[1..], 0);
      }
    }
  }

  /** The actual line ends at spend to date, or there is no line because the period has no settled
      stretch yet. */
  lemma {:induction false} ChartActualIs(b: Basis, sqrt: real -> real)
    requires PeriodDays(b)
    ensures ChartActual(b.Burndown(sqrt)) == if b.asOf >= b.periodStart then Some(b.SpendToDate()) else None
  {
    hide Basis.Cumulative, BandHalfWidth, Filter;
    var points := b.Burndown(sqrt);
    var k := Max(0, b.asOf - b.periodStart + 1);
    PlottedPrefix(points, k);
    if k > 0 {
      assert points[..k][k - 1] == points[k - 1] == b.Point(b.asOf, sqrt);
      ActualReachesSpendToDate(b);
    }
  }

  // ---- The series the assembler builds ----

  ghost predicate DatesIncrease(points: seq<SettledDayPoint>) {
    forall i, j :: 0 <= i < j < |points| ==> points[i].date < points[j].date
  }

  lemma {:induction false} FilterIncreases(points: seq<SettledDayPoint>, p: SettledDayPoint -> bool)
    requires DatesIncrease(points)
    ensures DatesIncrease(Filter(points, p))
  {
    if points != [] {
      FilterIncreases(points[1..], p);
      var rest := Filter(points[1..], p);
      forall x | x in rest ensures points[0].date < x.date {
        var k :| 0 <= k < |points[1..]| && points[1..][k] == x;
      }
    }
  }

  lemma {:induction false} NothingBeforeFirst(points: seq<SettledDayPoint>)
    requires DatesIncrease(points)
    ensures var first := FirstObserved(points);
      forall p :: p in points && (first.None? || p.date < first.value) ==> p.totalMicroUsd == 0
  {
    if points != [] && points[0].totalMicroUsd == 0 {
      NothingBeforeFirst(points[1..]);
    } else if points != [] {
      forall p | p in points ensures points[0].date <= p.date {
        var k :| 0 <= k < |points| && points[k] == p;
      }
    }
  }

  /** What a built series guarantees about its days. */
  ghost predicate WellBuilt(series: SettledSpendSeries) {
    && DatesIncrease(series.days)
    && (forall p :: p in series.days ==> (p.inPeriod <==> p.date >= series.periodStart))
    && (forall p :: p in series.days && p.settled ==>
         series.settledThrough.Some? && p.date <= series.settledThrough.value)
    && (series.settledThrough.Some? ==>
         series.settledThrough.value < series.windowEnd
         && exists p :: p in series.days && p.settled && p.date == series.settledThrough.value)
    && series.periodSettled == TotalsOver(series.days, IsSettledInPeriod)
    && series.periodObserved == TotalsOver(series.days, IsInPeriod)
    && (forall p :: p in series.days ==> p.byLayer.Total() == p.totalMicroUsd)
  }

  lemma {:induction false} PointShape(b: Bounds, rows: seq<CostRow>, landing: seq<LandingRow>, day: int)
    ensures var p := PointOn(b, rows, landing, day);
      && p.date == day && p.inPeriod == (day >= b.periodStart) && (p.settled ==> day != b.today)
      && p.byLayer.Total() == p.totalMicroUsd
  {
    PointLayersSum(rows, day);
  }

  lemma {:induction false} SettledThroughIsNewest(days: seq<SettledDayPoint>)
    requires DatesIncrease(days)
    ensures var baseline := Map(Filter(days, IsSettled), DateOfPoint);
      && (forall p :: p in days && p.settled ==> baseline != [] && p.date <= baseline[|baseline| - 1])
      && (baseline != [] ==> exists p :: p in days && p.settled && p.date == baseline[|baseline| - 1])
  {
    var settled := Filter(days, IsSettled);
    FilterIncreases(days, IsSettled);
    forall p | p in days && p.settled ensures settled != [] && p.date <= settled[|settled| - 1].date {
      assert p in settled;
      var k :| 0 <= k < |settled| && settled[k] == p;
    }
    if settled != [] {
      assert settled[|settled| - 1] in settled;
    }
  }

  /** Settled days are past days, the newest of them is `settledThrough`, and the totals are the totals
      of the days: for every scope, day and answer of the reads. */
  /** The days of the window, as the assembler leaves them. */
  ghost predicate WindowDays(days: seq<SettledDayPoint>, b: Bounds) {
    && DatesIncrease(days)
    && forall p :: p in days ==>
         && p.inPeriod == (p.date >= b.periodStart) && (p.settled ==> p.date < b.today)
         && p.byLayer.Total() == p.totalMicroUsd
  }

  lemma {:induction false} PointsAreWindowDays(b: Bounds, rows: seq<CostRow>, landing: seq<LandingRow>)
    requires b.windowStart + b.windowDays == b.today + 1
    ensures WindowDays(Points(b, rows, landing), b)
  {
    hide PointOn, SpendByLayer.Total;
    var days := Points(b, rows, landing);
    forall k | 0 <= k < |days|
      ensures var p := days[k];
        && p.date == b.windowStart + k && p.inPeriod == (p.date >= b.periodStart) && (p.settled ==> p.date < b.today)
        && p.byLayer.Total() == p.totalMicroUsd
    {
      PointShape(b, rows, landing, b.windowStart + k);
    }
  }

  lemma {:induction false} BuiltSeriesIsWellBuilt(scope: ForecastScope, today: int, rows: seq<CostRow>,
                                                  landing: seq<LandingRow>)
    requires InRange(today)
    ensures WellBuilt(SeriesFrom(scope, BoundsAt(today), rows, landing))
  {
    hide Points, Filter, TotalsOver, BoundsAt, SpendByLayer.Total, ReconciledThrough, ConnectorLayersIn, InRange,
         DatesIncrease;
    var b := BoundsAt(today);
    PointsAreWindowDays(b, rows, landing);
    SettledThroughIsNewest(Points(b, rows, landing));
  }

  // ---- The chart against the figure beside it ----

  function FedWithin(first: int, last: int): SettledDayPoint -> bool {
    (p: SettledDayPoint) => first <= p.date <= last
  }

  /** The day the engine is run as of. */
  function EngineAsOf(series: SettledSpendSeries): int {
    if series.settledThrough.Some? then series.settledThrough.value else series.windowEnd
  }

  function FedSpend(series: SettledSpendSeries, last: int): int {
    SumWhere(Fed(series.days), FedWithin(series.periodStart, last), PointTotal)
  }

  lemma {:induction false} EngineSpendToDate(series: SettledSpendSeries, budget: Option<int>, sqrt: real -> real)
    requires InRange(series.periodStart)
    ensures BasisOf(EngineInput(series, PointTotal, budget), sqrt).SpendToDate()
         == FedSpend(series, Min(EngineAsOf(series), MonthEnd(series.periodStart)))
  {
    var input := EngineInput(series, PointTotal, budget);
    var last := Min(EngineAsOf(series), MonthEnd(series.periodStart));
    SpendToDateIs(input, sqrt);
    WhereOfMap(Fed(series.days), ToDaily(PointTotal), Within(series.periodStart, last), Amount,
               FedWithin(series.periodStart, last), PointTotal);
  }

  ghost function ForecastFor(series: SettledSpendSeries, budget: Option<int>,
                             sqrt: real -> real): Result<SpendForecast, ForecastError>
    requires InRange(series.periodStart)
  {
    ForecastOf(EngineInput(series, PointTotal, budget), sqrt)
  }

  /** For any series at all, the plotted actual is what the engine was fed for the elapsed part of the
      period. */
  lemma {:induction false} PlottedActualIs(series: SettledSpendSeries, budget: Option<int>, sqrt: real -> real)
    requires InRange(series.periodStart)
    ensures var f, last := ForecastFor(series, budget, sqrt), Min(EngineAsOf(series), MonthEnd(series.periodStart));
      f.Ok? && f.value.burndown != [] ==>
        ChartActual(f.value.burndown) == if last >= series.periodStart then Some(FedSpend(series, last)) else None
  {
    hide Settled, BasisOf, ForecastOf, Fed, Breach, NaiveRunRate, WeekdayMedian, MonthEnd, InRange, FedSpend;
    if ForecastFor(series, budget, sqrt).Ok? && ForecastFor(series, budget, sqrt).value.burndown != [] {
      var input := EngineInput(series, PointTotal, budget);
      ForecastAcceptsExactly(input, sqrt);
      RefusesBelowHistoryFloor(input, sqrt);
      SettledCount(input);
      Projects(input, sqrt);
      BasisHoldsPeriodDays(input, sqrt);
      BasisShape(input, sqrt);
      ChartActualIs(BasisOf(input, sqrt), sqrt);
      EngineSpendToDate(series, budget, sqrt);
    }
  }

  /** Trimming the leading days drops only days that cost nothing, and every settled day fed in is at
      or before `settledThrough`: the fed spend is the settled month-to-date. */
  lemma {:induction false} FedSpendIsPeriodSettled(series: SettledSpendSeries)
    requires WellBuilt(series) && series.settledThrough.Some? && FirstObserved(series.days).Some?
    ensures FedSpend(series, series.settledThrough.value) == series.periodSettled.totalMicroUsd
  {
    var days, first, t := series.days, FirstObserved(series.days).value, series.settledThrough.value;
    var within := FedWithin(series.periodStart, t);
    NothingBeforeFirst(days);
    WhereOfFilter(Filter(days, IsSettled), OnOrAfter(first), within, PointTotal);
    WhereOfFilter(days, IsSettled, Both(OnOrAfter(first), within), PointTotal);
    TotalsSum(days, IsSettledInPeriod);
    WhereAgree(days, Both(IsSettled, Both(OnOrAfter(first), within)), IsSettledInPeriod, PointTotal);
  }

  lemma {:induction false} NoSettledDayInPeriod(series: SettledSpendSeries)
    requires WellBuilt(series)
    requires series.settledThrough.Some? ==> series.settledThrough.value < series.periodStart
    ensures Filter(Filter(series.days, IsInPeriod), IsSettled) == []
  {
    var both := Filter(Filter(series.days, IsInPeriod), IsSettled);
    if both != [] {
      assert both[0] in both;
    }
  }

  lemma {:induction false} FilterOfMapCount(points: seq<SettledDayPoint>, amount: SettledDayPoint -> int, asOf: int)
    ensures |Filter(Map(points, ToDaily(amount)), UpTo(asOf))| == |Filter(points, DatedUpTo(asOf))|
  {
    if points != [] {
      FilterOfMapCount(points[1..], amount, asOf);
      assert Map(points, ToDaily(amount))[1..] == Map(points[1..], ToDaily(amount));
    }
  }

  function DatedUpTo(asOf: int): SettledDayPoint -> bool {
    (p: SettledDayPoint) => p.date <= asOf
  }

  lemma {:induction false} FedNeedsObserved(series: SettledSpendSeries, budget: Option<int>, sqrt: real -> real)
    requires InRange(series.periodStart) && WellBuilt(series)
    ensures var f := ForecastFor(series, budget, sqrt);
      f.Ok? && f.value.burndown != [] ==> FirstObserved(series.days).Some? && series.settledThrough.Some?
  {
    if ForecastFor(series, budget, sqrt).Ok? && ForecastFor(series, budget, sqrt).value.burndown != [] {
      var input := EngineInput(series, PointTotal, budget);
      ForecastAcceptsExactly(input, sqrt);
      RefusesBelowHistoryFloor(input, sqrt);
      FilterOfMapCount(Fed(series.days), PointTotal, input.asOf);
      var fed := Fed(series.days);
      assert fed != [];
      assert fed[0] in fed;
    }
  }

  /** The whole pipeline. Whatever the database answers, for any scope and any budgets, if the section
      can be built at all then its chart agrees with the settled month-to-date printed beside it. */
  lemma {:induction false} ChartAlwaysReconciles(scope: ForecastScope, today: int, rows: seq<CostRow>,
                                                 landing: seq<LandingRow>, budgets: seq<TenantBudget>,
                                                 sqrt: real -> real, idLe: (string, string) -> bool)
    requires InRange(today)
    ensures var section := SectionOf(SeriesFrom(scope, BoundsAt(today), rows, landing), budgets, scope, sqrt, idLe);
      section.Ok? ==> section.value.chartReconciles
  {
    hide SectionOf, SeriesFrom, WellBuilt, BoundsAt;
    var series := SeriesFrom(scope, BoundsAt(today), rows, landing);
    BuiltSeriesIsWellBuilt(scope, today, rows, landing);
    SeriesPeriod(scope, BoundsAt(today), rows, landing);
    WellBuiltReconciles(series, budgets, scope, sqrt, idLe);
  }

  lemma {:induction false} SeriesPeriod(scope: ForecastScope, b: Bounds, rows: seq<CostRow>, landing: seq<LandingRow>)
    ensures SeriesFrom(scope, b, rows, landing).periodStart == b.periodStart
    ensures SeriesFrom(scope, b, rows, landing).windowEnd == b.today
  {
  }

  lemma {:induction false} WellBuiltReconciles(series: SettledSpendSeries, budgets: seq<TenantBudget>,
                                               scope: ForecastScope, sqrt: real -> real, idLe: (string, string) -> bool)
    requires WellBuilt(series) && InRange(series.periodStart) && series.windowEnd <= MonthEnd(series.periodStart)
    ensures var section := SectionOf(series, budgets, scope, sqrt, idLe); section.Ok? ==> section.value.chartReconciles
  {
    hide ForecastOf, EngineInput, LayerLines, Sort, Filter, WindowOf, ChartActual, SelectBudget;
    hide FirstProjected, LayerSum, Ratio, MonthEnd, InRange, Fed, FedSpend;
    if SectionOf(series, budgets, scope, sqrt, idLe).Ok? {
      var budget := Applied(SelectBudget(budgets, KindName(scope.kind), scope.value, series.windowEnd, idLe),
                            series.periodStart);
      var f := ForecastFor(series, AmountOf(budget), sqrt);
      if f.value.burndown != [] {
        FedNeedsObserved(series, AmountOf(budget), sqrt);
        PlottedActualIs(series, AmountOf(budget), sqrt);
        FedSpendIsPeriodSettled(series);
        if series.settledThrough.value < series.periodStart {
          NoSettledDayInPeriod(series);
        }
      }
    }
  }

  /** The flag is not a constant: for any series handed in, built or not, this is exactly when it holds.
      Nothing is drawn; or the drawn chart has an actual line, and the fed days of the elapsed period add
      up to the printed total; or it has none yet, and no day of the period is settled. A day dropped from
      the axis but still counted in the total is reported. */
  lemma {:induction false} ChartFlagExactly(series: SettledSpendSeries, budgets: seq<TenantBudget>,
                                            scope: ForecastScope, sqrt: real -> real, idLe: (string, string) -> bool)
    requires InRange(series.periodStart)
    ensures var section, last := SectionOf(series, budgets, scope, sqrt, idLe),
      Min(EngineAsOf(series), MonthEnd(series.periodStart));
      section.Ok? ==> (section.value.chartReconciles <==>
        section.value.forecast.burndown == []
        || if last >= series.periodStart then FedSpend(series, last) == series.periodSettled.totalMicroUsd
           else forall p :: p in series.days ==> !(p.inPeriod && p.settled))
  {
    hide ForecastOf, EngineInput, LayerLines, Sort, Filter, WindowOf, ChartActual, SelectBudget;
    hide FirstProjected, LayerSum, Ratio, MonthEnd, InRange, Fed, FedSpend;
    var budget := Applied(SelectBudget(budgets, KindName(scope.kind), scope.value, series.windowEnd, idLe),
                          series.periodStart);
    PlottedActualIs(series, AmountOf(budget), sqrt);
    var both := Filter(Filter(series.days, IsInPeriod), IsSettled);
    assert forall p :: p in both <==> p in series.days && p.inPeriod && p.settled;
    assert both != [] ==> both[0] in both;
  }

  // ---- When the section can be built ----

  lemma {:induction false} LayerLinesAre(series: SettledSpendSeries, layers: seq<Layer>, budgets: seq<TenantBudget>,
                                         scope: ForecastScope, sqrt: real -> real, idLe: (string, string) -> bool)
    requires InRange(series.periodStart)
    ensures var lines := LayerLines(series, layers, budgets, scope, sqrt, idLe);
      && (lines.Ok? <==> forall i :: 0 <= i < |layers| ==>
           ForecastOf(EngineInput(series, LayerAmount(layers[i]), None), sqrt).Ok?)
      && (lines.Ok? ==> |lines.value| == |layers|)
      && (lines.Ok? ==> forall i :: 0 <= i < |layers| ==>
           lines.value[i] == LayerLine(series, layers[i],
                                       ForecastOf(EngineInput(series, LayerAmount(layers[i]), None), sqrt).value,
                                       LayerBudget(budgets, scope, layers[i], series.windowEnd, idLe)))
  {
    hide ForecastOf, EngineInput, LayerLine, LayerBudget;
    if layers != [] {
      LayerLinesAre(series, layers[..|layers| - 1], budgets, scope, sqrt, idLe);
    }
  }

  lemma {:induction false} FedIncreases(series: SettledSpendSeries)
    requires DatesIncrease(series.days)
    ensures DatesIncrease(Fed(series.days))
  {
    FilterIncreases(series.days, IsSettled);
    if FirstObserved(series.days).Some? {
      FilterIncreases(Filter(series.days, IsSettled), OnOrAfter(FirstObserved(series.days).value));
    }
  }

  lemma {:induction false} MappedInput(fed: seq<SettledDayPoint>, amount: SettledDayPoint -> int)
    requires DatesIncrease(fed)
    ensures DistinctDates(Map(fed, ToDaily(amount)))
    ensures (forall d :: d in Map(fed, ToDaily(amount)) ==> IsSafeInteger(d.microUsd))
       <==> (forall p :: p in fed ==> IsSafeInteger(amount(p)))
  {
    var days := Map(fed, ToDaily(amount));
    assert forall i :: 0 <= i < |fed| ==> days[i] in days && fed[i] in fed;
  }

  lemma {:induction false} EngineAccepts(series: SettledSpendSeries, amount: SettledDayPoint -> int,
                                         budget: Option<int>, sqrt: real -> real)
    requires DatesIncrease(series.days) && InRange(series.periodStart)
    ensures ForecastOf(EngineInput(series, amount, budget), sqrt).Ok? <==>
      (forall p :: p in Fed(series.days) ==> IsSafeInteger(amount(p))) && (budget.Some? ==> IsSafeInteger(budget.value))
  {
    hide ForecastOf, Fed, MonthEnd, InRange, IsSafeInteger;
    ForecastAcceptsExactly(EngineInput(series, amount, budget), sqrt);
    PeriodNotInverted(series.periodStart);
    FedIncreases(series);
    MappedInput(Fed(series.days), amount);
  }

  lemma {:induction false} PeriodNotInverted(start: int)
    requires InRange(start)
    ensures start <= MonthEnd(start)
  {
    MonthBounds(start);
  }

  /** A section is built exactly when every fed amount, total or layer, and the budget are safe
      integers: nothing else the engine checks can fail on a series the assembler built. */
  lemma {:induction false} SectionBuiltExactly(series: SettledSpendSeries, budgets: seq<TenantBudget>,
                                               scope: ForecastScope, sqrt: real -> real, idLe: (string, string) -> bool)
    requires DatesIncrease(series.days) && InRange(series.periodStart)
    ensures var budget := SelectBudget(budgets, KindName(scope.kind), scope.value, series.windowEnd, idLe);
      SectionOf(series, budgets, scope, sqrt, idLe).Ok? <==>
        && (budget.Some? ==> IsSafeInteger(budget.value.amountMicro))
        && forall p :: p in Fed(series.days) ==>
             IsSafeInteger(p.totalMicroUsd) && forall l :: l in LAYERS ==> IsSafeInteger(p.byLayer.At(l))
  {
    hide ForecastOf, EngineInput, LayerLines, Fed, SelectBudget, DatesIncrease, IsSafeInteger, Compose, InRange;
    var budget := Applied(SelectBudget(budgets, KindName(scope.kind), scope.value, series.windowEnd, idLe),
                          series.periodStart);
    EngineAccepts(series, PointTotal, AmountOf(budget), sqrt);
    LayerLinesAre(series, LAYERS, budgets, scope, sqrt, idLe);
    forall l | l in LAYERS
      ensures ForecastOf(EngineInput(series, LayerAmount(l), None), sqrt).Ok?
        <==> forall p :: p in Fed(series.days) ==> IsSafeInteger(p.byLayer.At(l))
    {
      EngineAccepts(series, LayerAmount(l), None, sqrt);
    }
    assert forall l :: l in LAYERS ==> exists i :: 0 <= i < |LAYERS| && LAYERS[i] == l;
    assert forall i :: 0 <= i < |LAYERS| ==> LAYERS[i] in LAYERS;
  }

  // ---- The layer rows ----

  /** A layer cannot fall below the history floor on its own. It is fed the same days as the tenant, so
      its status is always the section's. */
  lemma {:induction false} LayerStatusIsSectionStatus(series: SettledSpendSeries, amount: SettledDayPoint -> int,
                                                      budget: Option<int>, sqrt: real -> real)
    requires InRange(series.periodStart)
    ensures var tenant, layer := ForecastFor(series, budget, sqrt), ForecastOf(EngineInput(series, amount, None), sqrt);
      tenant.Ok? && layer.Ok? ==> layer.value.status == tenant.value.status
  {
    var tenant, layer := EngineInput(series, PointTotal, budget), EngineInput(series, amount, None);
    hide ForecastOf, Fed, MonthEnd;
    if ForecastOf(tenant, sqrt).Ok? && ForecastOf(layer, sqrt).Ok? {
      ForecastAcceptsExactly(tenant, sqrt);
      ForecastAcceptsExactly(layer, sqrt);
      RefusesBelowHistoryFloor(tenant, sqrt);
      RefusesBelowHistoryFloor(layer, sqrt);
      FilterOfMapCount(Fed(series.days), PointTotal, tenant.asOf);
      FilterOfMapCount(Fed(series.days), amount, tenant.asOf);
    }
  }

  lemma {:induction false} ProjectedExactlyWhen(input: ForecastInput, sqrt: real -> real)
    requires ForecastOf(input, sqrt).Ok?
    ensures ForecastOf(input, sqrt).value.projectedMicroUsd.Some? <==> ForecastOf(input, sqrt).value.status == Projected
  {
    ForecastAcceptsExactly(input, sqrt);
    RefusesBelowHistoryFloor(input, sqrt);
  }

  const SettledOf: LayerProjection -> int := (l: LayerProjection) => l.settledMicroUsd

  /** The line the section names as the largest layer. */
  ghost predicate LeadsBy(lines: seq<LayerProjection>, top: LayerProjection, layer: Layer) {
    && top in lines && top.layer == layer && top.projectedMicroUsd.Some?
    && forall l :: l in lines && l.projectedMicroUsd.Some? ==> l.projectedMicroUsd.value <= top.projectedMicroUsd.value
  }

  /** The rows of the layer table: all six layers, each once; each with the section's own status and
      projected exactly when the section is; the largest named is really the largest; and their
      settled spend adds up to the settled month-to-date, although their projections need not. */
  ghost predicate LayerRowsHold(section: BurndownSection) {
    && multiset(Map(section.layers, LayerOfLine)) == multiset(LAYERS)
    && (forall l :: l in section.layers ==>
         && l.status == section.forecast.status
         && (l.projectedMicroUsd.Some? <==> section.forecast.projectedMicroUsd.Some?))
    && (section.largestLayer.Some? <==> section.forecast.projectedMicroUsd.Some?)
    && (section.largestLayer.Some? ==> exists top :: LeadsBy(section.layers, top, section.largestLayer.value))
    && SumBy(section.layers, SettledOf) == section.settledPeriodMicroUsd
  }

  lemma {:induction false} LayerRowsRanked(series: SettledSpendSeries, budgets: seq<TenantBudget>, scope: ForecastScope,
                                        sqrt: real -> real, idLe: (string, string) -> bool)
    requires WellBuilt(series) && InRange(series.periodStart)
    ensures var section := SectionOf(series, budgets, scope, sqrt, idLe);
      section.Ok? ==> LayerRowsHold(section.value)
  {
    hide SectionOf, Compose, LayerLines, LayerLine, ForecastOf, EngineInput, WellBuilt, InRange, LayerSum, Sort, Map,
         FirstProjected, LeadsBy, RankOf;
    if SectionOf(series, budgets, scope, sqrt, idLe).Ok? {
      SectionRows(series, budgets, scope, sqrt, idLe);
      var section := SectionOf(series, budgets, scope, sqrt, idLe).value;
      var lines := LayerLines(series, LAYERS, budgets, scope, sqrt, idLe).value;
      StatusesAgree(series, budgets, scope, sqrt, idLe);
      LineIdentities(series, budgets, scope, sqrt, idLe);
      SettledLayersSum(series, lines);
      RankedKeeps(lines, LayerSum(lines), LAYERS, section.forecast.status, section.forecast.projectedMicroUsd.Some?);
    }
  }

  /** Every row reports its own layer's spend on the settled days of the period. */
  ghost predicate LayerRowsSettle(section: BurndownSection, series: SettledSpendSeries) {
    forall l :: l in section.layers ==>
      l.settledMicroUsd == SumWhere(series.days, IsSettledInPeriod, LayerAmount(l.layer))
  }

  lemma {:induction false} LayerRowsAre(series: SettledSpendSeries, budgets: seq<TenantBudget>, scope: ForecastScope,
                                        sqrt: real -> real, idLe: (string, string) -> bool)
    requires WellBuilt(series) && InRange(series.periodStart)
    ensures var section := SectionOf(series, budgets, scope, sqrt, idLe);
      section.Ok? ==> LayerRowsHold(section.value) && LayerRowsSettle(section.value, series)
  {
    hide SectionOf, LayerLines, WellBuilt, InRange, LayerSum, Sort, Map, LayerRowsHold, TotalsOver, SumWhere;
    LayerRowsRanked(series, budgets, scope, sqrt, idLe);
    if SectionOf(series, budgets, scope, sqrt, idLe).Ok? {
      SectionRows(series, budgets, scope, sqrt, idLe);
      LineIdentities(series, budgets, scope, sqrt, idLe);
      var lines := LayerLines(series, LAYERS, budgets, scope, sqrt, idLe).value;
      LinesSettle(series, lines);
      RankedLines(lines, LayerSum(lines));
    }
  }

  // ---- The figures of a section ----

  /** One row's own figures: the projection is the engine's for that layer's amounts alone, its share is of
      the sum over the layers, and its budget is the tenant's own for the layer, off the tenant none. */
  ghost predicate LineFigures(l: LayerProjection, series: SettledSpendSeries, budgets: seq<TenantBudget>,
                              scope: ForecastScope, sqrt: real -> real, idLe: (string, string) -> bool,
                              sum: Option<int>)
    requires InRange(series.periodStart)
  {
    var own := ForecastOf(EngineInput(series, LayerAmount(l.layer), None), sqrt);
    var budget := SelectBudget(budgets, "layer", LayerName(l.layer), series.windowEnd, idLe);
    && own.Ok? && l.projectedMicroUsd == own.value.projectedMicroUsd
    && (l.shareOfProjected.Some? <==> l.projectedMicroUsd.Some? && sum.Some? && sum.value != 0)
    && (l.shareOfProjected.Some? ==>
         l.shareOfProjected.value * sum.value as real == l.projectedMicroUsd.value as real)
    && (l.budgetMicroUsd.Some? <==> scope.kind == TenantKind && budget.Some?)
    && (l.budgetMicroUsd.Some? ==> l.budgetMicroUsd.value == budget.value.amountMicro)
    && (l.varianceMicroUsd.Some? <==> l.budgetMicroUsd.Some? && l.projectedMicroUsd.Some?)
    && (l.varianceMicroUsd.Some? ==>
         l.varianceMicroUsd.value == l.projectedMicroUsd.value - l.budgetMicroUsd.value)
  }

  ghost predicate SectionFigures(s: BurndownSection, series: SettledSpendSeries, budgets: seq<TenantBudget>,
                                 scope: ForecastScope, sqrt: real -> real, idLe: (string, string) -> bool)
    requires InRange(series.periodStart)
  {
    var f, projected := s.forecast, s.forecast.projectedMicroUsd;
    var chosen := SelectBudget(budgets, KindName(scope.kind), scope.value, series.windowEnd, idLe);
    && s.scope == scope && s.periodStart == series.periodStart && s.periodEnd == MonthEnd(series.periodStart)
    && s.asOf == series.settledThrough && s.today == series.windowEnd
    && (s.budget.Some? <==> chosen.Some?)
    && (s.budget.Some? ==>
         && s.budget.value.budgetId == chosen.value.budgetId
         && s.budget.value.amountMicroUsd == chosen.value.amountMicro
         && s.budget.value.startsOn == chosen.value.startsOn && s.budget.value.endsOn == chosen.value.endsOn
         && (s.budget.value.coversPeriodToDate <==> chosen.value.startsOn <= series.periodStart))
    && (s.varianceMicroUsd.Some? <==> s.budget.Some? && projected.Some?)
    && (s.varianceMicroUsd.Some? ==> s.varianceMicroUsd.value == projected.value - s.budget.value.amountMicroUsd)
    && (s.variancePct.Some? <==> s.varianceMicroUsd.Some? && s.budget.value.amountMicroUsd != 0)
    && (s.variancePct.Some? ==>
         s.variancePct.value * s.budget.value.amountMicroUsd as real == s.varianceMicroUsd.value as real)
    && s.layerSumMicroUsd == (if projected.Some? then Some(SumBy(s.layers, ProjectedOf)) else None)
    && (s.layersReconcile <==> projected.None? || SumBy(s.layers, ProjectedOf) == projected.value)
    && forall l :: l in s.layers ==> LineFigures(l, series, budgets, scope, sqrt, idLe, s.layerSumMicroUsd)
  }

  lemma {:induction false} RatioIs(part: int, whole: int)
    ensures Ratio(part, whole).Some? <==> whole != 0
    ensures whole != 0 ==> Ratio(part, whole).value * whole as real == part as real
  {
  }

  /** `share` of a whole that is there and not zero is the part divided by it, and else absent. */
  ghost predicate IsShare(share: Option<real>, part: int, whole: Option<int>) {
    && (share.Some? <==> whole.Some? && whole.value != 0)
    && (share.Some? ==> share.value * whole.value as real == part as real)
  }

  lemma {:induction false} RatioIsShare(part: int, whole: int)
    ensures IsShare(Ratio(part, whole), part, Some(whole))
  {
  }

  lemma {:induction false} LayerSumIs(lines: seq<LayerProjection>, projected: bool)
    requires lines != [] && forall i :: 0 <= i < |lines| ==> (lines[i].projectedMicroUsd.Some? <==> projected)
    ensures LayerSum(lines) == if projected then Some(SumBy(lines, ProjectedOf)) else None
  {
    if projected {
      FilterAll(lines, IsProjected);
    } else {
      FilterNone(lines, IsProjected);
    }
  }

  lemma {:induction false} RankedProjectedSum(lines: seq<LayerProjection>, sum: Option<int>)
    ensures SumBy(Sort(Map(lines, WithShare(sum)), LargerFirst), ProjectedOf) == SumBy(lines, ProjectedOf)
  {
    var shared := Map(lines, WithShare(sum));
    SortPermutes(shared, LargerFirst);
    hide Sort, SumBy, Ratio;
    SumPermutation(Sort(shared, LargerFirst), shared, ProjectedOf);
    SumPointwise(shared, lines, ProjectedOf, ProjectedOf);
  }

  lemma {:induction false} LineHasFigures(series: SettledSpendSeries, budgets: seq<TenantBudget>, scope: ForecastScope,
                                          sqrt: real -> real, idLe: (string, string) -> bool, i: nat, sum: Option<int>)
    requires InRange(series.periodStart) && LayerLines(series, LAYERS, budgets, scope, sqrt, idLe).Ok? && i < |LAYERS|
    ensures var lines := LayerLines(series, LAYERS, budgets, scope, sqrt, idLe).value;
      |lines| == |LAYERS| && LineFigures(WithShare(sum)(lines[i]), series, budgets, scope, sqrt, idLe, sum)
  {
    hide ForecastOf, EngineInput, SelectBudget, InRange, LayerLines, Ratio;
    LayerLinesAre(series, LAYERS, budgets, scope, sqrt, idLe);
    var line := LayerLines(series, LAYERS, budgets, scope, sqrt, idLe).value[i];
    if sum.Some? && line.projectedMicroUsd.Some? {
      RatioIs(line.projectedMicroUsd.value, sum.value);
    }
  }

  /** Every figure of a section beside its chart: which budget applies and from when, the variance against
      it, and the layers, each by its own forecast, with the flag that says whether they add up. */
  lemma {:induction false} SectionFiguresAre(series: SettledSpendSeries, budgets: seq<TenantBudget>,
                                             scope: ForecastScope, sqrt: real -> real, idLe: (string, string) -> bool)
    requires InRange(series.periodStart)
    ensures var section := SectionOf(series, budgets, scope, sqrt, idLe);
      section.Ok? ==> SectionFigures(section.value, series, budgets, scope, sqrt, idLe)
  {
    hide ForecastOf, EngineInput, LayerLines, LineFigures, SelectBudget, InRange, MonthEnd, LayerSum, Sort, Map, SumBy,
         WindowOf, ChartActual, ChartReconciles, FirstProjected, Ratio, LayerLine, Filter;
    if SectionOf(series, budgets, scope, sqrt, idLe).Ok? {
      var s := SectionOf(series, budgets, scope, sqrt, idLe).value;
      SectionRows(series, budgets, scope, sqrt, idLe);
      StatusesAgree(series, budgets, scope, sqrt, idLe);
      var lines := LayerLines(series, LAYERS, budgets, scope, sqrt, idLe).value;
      LayerLinesAre(series, LAYERS, budgets, scope, sqrt, idLe);
      LayerSumIs(lines, s.forecast.projectedMicroUsd.Some?);
      RankedProjectedSum(lines, LayerSum(lines));
      RankedLines(lines, LayerSum(lines));
      forall i | 0 <= i < |lines|
        ensures LineFigures(WithShare(LayerSum(lines))(lines[i]), series, budgets, scope, sqrt, idLe, LayerSum(lines))
      {
        LineHasFigures(series, budgets, scope, sqrt, idLe, i, LayerSum(lines));
      }
      if s.varianceMicroUsd.Some? {
        RatioIs(s.varianceMicroUsd.value, s.budget.value.amountMicroUsd);
      }
    }
  }

  lemma {:induction false} SectionRows(series: SettledSpendSeries, budgets: seq<TenantBudget>, scope: ForecastScope,
                                       sqrt: real -> real, idLe: (string, string) -> bool)
    requires InRange(series.periodStart)
    ensures var section, lines := SectionOf(series, budgets, scope, sqrt, idLe),
      LayerLines(series, LAYERS, budgets, scope, sqrt, idLe);
      section.Ok? ==>
        && lines.Ok?
        && section.value.layers == Sort(Map(lines.value, WithShare(LayerSum(lines.value))), LargerFirst)
        && section.value.largestLayer == FirstProjected(section.value.layers)
        && section.value.settledPeriodMicroUsd == series.periodSettled.totalMicroUsd
  {
    hide ForecastOf, EngineInput, SelectBudget, WindowOf, ChartActual, ChartReconciles, MonthEnd, InRange;
    hide LayerLines, LayerSum, FirstProjected, Ratio, Sort, Map;
  }

  lemma {:induction false} LineIdentities(series: SettledSpendSeries, budgets: seq<TenantBudget>, scope: ForecastScope,
                                          sqrt: real -> real, idLe: (string, string) -> bool)
    requires InRange(series.periodStart)
    ensures var lines := LayerLines(series, LAYERS, budgets, scope, sqrt, idLe);
      lines.Ok? ==>
        && |lines.value| == |LAYERS|
        && forall i :: 0 <= i < |LAYERS| ==>
             lines.value[i].layer == LAYERS[i]
               && lines.value[i].settledMicroUsd == series.periodSettled.byLayer.At(LAYERS[i])
  {
    hide ForecastOf, EngineInput, LayerBudget, LayerLines, InRange, SpendByLayer.At;
    LayerLinesAre(series, LAYERS, budgets, scope, sqrt, idLe);
  }

  /** Filling in the shares and ranking the lines changes neither which layers there are, nor their
      statuses, nor their settled spend. */
  lemma {:induction false} RankedKeeps(lines: seq<LayerProjection>, sum: Option<int>, layers: seq<Layer>,
                                       status: ForecastStatus, projected: bool)
    requires |lines| == |layers| > 0
    requires forall i :: 0 <= i < |lines| ==> lines[i].layer == layers[i] && lines[i].status == status
    requires forall i :: 0 <= i < |lines| ==> (lines[i].projectedMicroUsd.Some? <==> projected)
    ensures var ranked := Sort(Map(lines, WithShare(sum)), LargerFirst);
      && multiset(Map(ranked, LayerOfLine)) == multiset(layers)
      && (forall l :: l in ranked ==> l.status == status && (l.projectedMicroUsd.Some? <==> projected))
      && (FirstProjected(ranked).Some? <==> projected)
      && (projected ==> exists top :: LeadsBy(ranked, top, FirstProjected(ranked).value))
      && SumBy(ranked, SettledOf) == SumBy(lines, SettledOf)
  {
    hide FirstProjected, LeadsBy, Ratio, Sort, RankOf;
    var shared := Map(lines, WithShare(sum));
    var ranked := Sort(shared, LargerFirst);
    SortPermutes(shared, LargerFirst);
    SortMembers(shared, LargerFirst);
    MapPermutes(shared, ranked, LayerOfLine);
    assert Map(shared, LayerOfLine) == layers;
    SumPermutation(ranked, shared, SettledOf);
    SumPointwise(shared, lines, SettledOf, SettledOf);
    LargestIsFirst(shared, projected);
  }

  const LayerOfLine: LayerProjection -> Layer := (l: LayerProjection) => l.layer

  lemma {:induction false} StatusesAgree(series: SettledSpendSeries, budgets: seq<TenantBudget>, scope: ForecastScope,
                                         sqrt: real -> real, idLe: (string, string) -> bool)
    requires InRange(series.periodStart)
    ensures var section, lines := SectionOf(series, budgets, scope, sqrt, idLe),
      LayerLines(series, LAYERS, budgets, scope, sqrt, idLe);
      section.Ok? ==> lines.Ok? && forall i :: 0 <= i < |lines.value| ==>
        && lines.value[i].status == section.value.forecast.status
        && (lines.value[i].projectedMicroUsd.Some? <==> section.value.forecast.projectedMicroUsd.Some?)
  {
    hide ForecastOf, EngineInput, SelectBudget, WindowOf, ChartActual, ChartReconciles, MonthEnd, LayerBudget,
         LayerLines, InRange, LayerSum;
    if SectionOf(series, budgets, scope, sqrt, idLe).Ok? {
      LayerLinesAre(series, LAYERS, budgets, scope, sqrt, idLe);
      var budget := Applied(SelectBudget(budgets, KindName(scope.kind), scope.value, series.windowEnd, idLe),
                            series.periodStart);
      ProjectedExactlyWhen(EngineInput(series, PointTotal, AmountOf(budget)), sqrt);
      forall i | 0 <= i < |LAYERS|
        ensures ForecastOf(EngineInput(series, LayerAmount(LAYERS[i]), None), sqrt).Ok?
      {
      }
      forall i | 0 <= i < |LAYERS|
        ensures var f := ForecastOf(EngineInput(series, LayerAmount(LAYERS[i]), None), sqrt).value;
          && f.status == ForecastFor(series, AmountOf(budget), sqrt).value.status
          && (f.projectedMicroUsd.Some? <==> f.status == Projected)
      {
        LayerStatusIsSectionStatus(series, LayerAmount(LAYERS[i]), AmountOf(budget), sqrt);
        ProjectedExactlyWhen(EngineInput(series, LayerAmount(LAYERS[i]), None), sqrt);
      }
    }
  }

  /** Each ranked line is one of the lines, with its share filled in. */
  lemma {:induction false} RankedLines(lines: seq<LayerProjection>, sum: Option<int>)
    ensures forall l :: l in Sort(Map(lines, WithShare(sum)), LargerFirst) ==>
      exists i :: 0 <= i < |lines| && l == WithShare(sum)(lines[i])
  {
    var shared := Map(lines, WithShare(sum));
    SortMembers(shared, LargerFirst);
    hide Sort;
    forall l | l in shared ensures exists i :: 0 <= i < |lines| && l == WithShare(sum)(lines[i]) {
      var i :| 0 <= i < |shared| && shared[i] == l;
    }
  }

  lemma {:induction false} LinesSettle(series: SettledSpendSeries, lines: seq<LayerProjection>)
    requires WellBuilt(series) && |lines| == |LAYERS|
    requires forall i :: 0 <= i < |LAYERS| ==>
      lines[i].layer == LAYERS[i] && lines[i].settledMicroUsd == series.periodSettled.byLayer.At(LAYERS[i])
    ensures forall i :: 0 <= i < |lines| ==>
      lines[i].settledMicroUsd == SumWhere(series.days, IsSettledInPeriod, LayerAmount(lines[i].layer))
  {
    hide SumWhere, SpendByLayer.At, TotalsOver, DatesIncrease;
    forall i | 0 <= i < |lines|
      ensures lines[i].settledMicroUsd == SumWhere(series.days, IsSettledInPeriod, LayerAmount(lines[i].layer))
    {
      TotalsByLayer(series.days, IsSettledInPeriod, LAYERS[i]);
    }
  }

  lemma {:induction false} SettledLayersSum(series: SettledSpendSeries, lines: seq<LayerProjection>)
    requires WellBuilt(series) && |lines| == |LAYERS|
    requires forall i :: 0 <= i < |LAYERS| ==> lines[i].settledMicroUsd == series.periodSettled.byLayer.At(LAYERS[i])
    ensures SumBy(lines, SettledOf) == series.periodSettled.totalMicroUsd
  {
    hide SumBy, SpendByLayer.At, SpendByLayer.Total, TotalsOver, DatesIncrease;
    TotalsLayers(series.days, IsSettledInPeriod);
    LayerTotal(series.periodSettled.byLayer);
    SumPointwise(lines, LAYERS, SettledOf, AtLayer(series.periodSettled.byLayer));
  }

  lemma {:induction false} LargestIsFirst(lines: seq<LayerProjection>, projected: bool)
    requires lines != [] && forall i :: 0 <= i < |lines| ==> (lines[i].projectedMicroUsd.Some? <==> projected)
    ensures var ranked := Sort(lines, LargerFirst);
      && (FirstProjected(ranked).Some? <==> projected)
      && (projected ==> exists top :: LeadsBy(ranked, top, FirstProjected(ranked).value))
  {
    var ranked := Sort(lines, LargerFirst);
    SortPermutes(lines, LargerFirst);
    SortMembers(lines, LargerFirst);
    SortSorts(lines, LargerFirst);
    hide Sort;
    forall i | 0 <= i < |ranked| ensures ranked[i].projectedMicroUsd.Some? <==> projected {
      assert ranked[i] in ranked;
      var k :| 0 <= k < |lines| && lines[k] == ranked[i];
    }
    if projected {
      assert ranked[0] in ranked;
      forall l | l in ranked ensures RankOf(l) <= RankOf(ranked[0]) {
        var k :| 0 <= k < |ranked| && ranked[k] == l;
        assert k == 0 || LargerFirst(ranked[0], ranked[k]);
      }
      assert LeadsBy(ranked, ranked[0], FirstProjected(ranked).value);
    } else {
      NoneProjected(ranked);
    }
  }

  lemma {:induction false} NoneProjected(lines: seq<LayerProjection>)
    requires forall i :: 0 <= i < |lines| ==> lines[i].projectedMicroUsd.None?
    ensures FirstProjected(lines).None?
  {
    if lines != [] {
      NoneProjected(lines[1..]);
    }
  }

  // ---- The stated input window ----

  lemma {:induction false} ExcludedIsUnsettled(series: SettledSpendSeries)
    requires WellBuilt(series)
    ensures WindowOf(series).excludedMicroUsd == SumWhere(series.days, Both(IsInPeriod, IsUnsettled), PointTotal)
  {
    hide TotalsOver, DatesIncrease, Ratio, Fed;
    TotalsSum(series.days, IsInPeriod);
    TotalsSum(series.days, IsSettledInPeriod);
    WhereSplit(series.days, IsInPeriod, IsSettledInPeriod, Both(IsInPeriod, IsUnsettled), PointTotal);
  }

  lemma {:induction false} TrimmedDaysAreZero(series: SettledSpendSeries)
    requires DatesIncrease(series.days)
    ensures |Fed(series.days)| <= |Filter(series.days, IsSettled)|
    ensures forall p :: p in series.days && p.settled && p !in Fed(series.days) ==> p.totalMicroUsd == 0
  {
    NothingBeforeFirst(series.days);
  }

  /** What the window line says is what the engine used: its day count is the engine's history, the
      trimmed days cost nothing, and the excluded dollars are those of the excluded days. */
  lemma {:induction false} WindowStatesTheInput(series: SettledSpendSeries, budget: Option<int>, sqrt: real -> real)
    requires WellBuilt(series) && InRange(series.periodStart) && ForecastFor(series, budget, sqrt).Ok?
    ensures var window := WindowOf(series);
      && window.dayCount == ForecastFor(series, budget, sqrt).value.historyDays
      && window.trimmedLeadingDays >= 0
      && (forall p :: p in series.days && p.settled && p !in Fed(series.days) ==> p.totalMicroUsd == 0)
      && window.excludedMicroUsd == SumWhere(series.days, Both(IsInPeriod, IsUnsettled), PointTotal)
  {
    var input, fed := EngineInput(series, PointTotal, budget), Fed(series.days);
    forall p | p in fed ensures DatedUpTo(input.asOf)(p) {
    }
    ExcludedIsUnsettled(series);
    TrimmedDaysAreZero(series);
    hide ForecastOf, Fed, MonthEnd, InRange, TotalsOver, Ratio, Filter, SumWhere, DatesIncrease, FirstObserved;
    ForecastAcceptsExactly(input, sqrt);
    RefusesBelowHistoryFloor(input, sqrt);
    FilterOfMapCount(fed, PointTotal, input.asOf);
    FilterAll(fed, DatedUpTo(input.asOf));
  }
}
