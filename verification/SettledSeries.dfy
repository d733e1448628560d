/** The settled-day assembler (querySettledCostSeries in web/lib/clickhouse.ts): daily spend of one
    scope, with every day marked settled or not from evidence that is never sliced by the scope.

    Both reads answer over one list of spans: one row per group present, in any order, with that
    group's sum or count. Days are day numbers (see module Calendar). */
module SettledSeries {
  import opened Results
  import opened Sums
  import opened Layers
  import opened Calendar
  import opened SpendScopes

  const SETTLED_TRAILING_DAYS := 30
  const CONNECTOR_LAYERS: seq<Layer> := [Compute, Egress]

  datatype Span = Span(
    day: int, operation: string, costMicroUsd: int, feature: string,
    requestModel: string, responseModel: string, reconciled: bool)

  const SpanCost: Span -> int := (s: Span) => s.costMicroUsd
  const SpanDay: Span -> int := (s: Span) => s.day
  const SpanLayer: Span -> Layer := (s: Span) => LayerOf(s.operation)

  // ---- The window and the scope ----

  datatype Bounds = Bounds(windowStart: int, periodStart: int, today: int, windowDays: nat)

  /** The window as the database's clock reports it: thirty days, or back to the first of the month when
      that is longer. */
  function BoundsAt(today: int): (b: Bounds)
    requires InRange(today)
    ensures b.windowStart <= b.periodStart <= b.today == today && b.windowStart + b.windowDays == today + 1
    ensures InRange(b.periodStart) && InRange(MonthEnd(b.periodStart)) && today <= MonthEnd(b.periodStart)
    ensures b.windowDays >= 30 && (b.windowDays == 30 || b.windowStart == b.periodStart)
  {
    hide CivilOf, DateUTC;
    MonthBounds(today);
    var periodStart := MonthStart(today);
    var trailing := today - (SETTLED_TRAILING_DAYS - 1);
    var windowStart := if trailing < periodStart then trailing else periodStart;
    Bounds(windowStart, periodStart, today, today - windowStart + 1)
  }

  /** `scopeFilter`: the model is the one that served the call when the provider named it. */
  function Matches(scope: ForecastScope): Span -> bool {
    (s: Span) =>
      match scope.kind
      case TenantKind => true
      case FeatureKind => s.feature == scope.value
      case ModelKind => (if s.responseModel != "" then s.responseModel else s.requestModel) == scope.value
      case LayerKind => LayerName(LayerOf(s.operation)) == scope.value
  }

  // ---- What the reads answer ----

  datatype CostRow = CostRow(day: int, layer: Layer, cost: int)
  datatype LandingRow = LandingRow(day: int, compute: nat, egress: nat, reconciled: nat)

  const RowCost: CostRow -> int := (r: CostRow) => r.cost
  const RowDay: CostRow -> int := (r: CostRow) => r.day
  const RowLayer: CostRow -> Layer := (r: CostRow) => r.layer

  const Everything: CostRow -> bool := (r: CostRow) => true

  function Landed(r: LandingRow, layer: Layer): nat {
    if layer == Compute then r.compute else if layer == Egress then r.egress else 0
  }

  function SpanSpend(spans: seq<Span>, scope: ForecastScope, day: int, layer: Layer): int {
    SumWhere(spans, InGroup(InGroup(Matches(scope), SpanDay, day), SpanLayer, layer), SpanCost)
  }

  /** `GROUP BY day, layer` over the scope's spans in the window. */
  ghost predicate AnswersCost(spans: seq<Span>, scope: ForecastScope, b: Bounds, rows: seq<CostRow>) {
    && (forall i, j :: 0 <= i < j < |rows| ==> rows[i].day != rows[j].day || rows[i].layer != rows[j].layer)
    && (forall r :: r in rows ==> r.day >= b.windowStart && r.cost == SpanSpend(spans, scope, r.day, r.layer))
    && (forall s :: s in spans && s.day >= b.windowStart && Matches(scope)(s) ==>
         exists r :: r in rows && r.day == s.day && r.layer == SpanLayer(s))
  }

  ghost predicate LayerLanded(spans: seq<Span>, layer: Layer, day: int) {
    exists s :: s in spans && s.day == day && SpanLayer(s) == layer
  }

  /** `GROUP BY day` over all spans in the window: a count is positive exactly when a span is there. */
  ghost predicate AnswersLanding(spans: seq<Span>, b: Bounds, rows: seq<LandingRow>) {
    && (forall i, j :: 0 <= i < j < |rows| ==> rows[i].day != rows[j].day)
    && (forall r :: r in rows ==>
         && r.day >= b.windowStart
         && (r.compute > 0 <==> LayerLanded(spans, Compute, r.day))
         && (r.egress > 0 <==> LayerLanded(spans, Egress, r.day))
         && (r.reconciled > 0 <==> exists s :: s in spans && s.day == r.day && s.reconciled))
    && (forall s :: s in spans && s.day >= b.windowStart ==> exists r :: r in rows && r.day == s.day)
  }

  // ---- The series ----

  datatype SpendByLayer = SpendByLayer(llm: int, vector: int, tools: int, compute: int, embeddings: int, egress: int)
  {
    function At(layer: Layer): int {
      match layer
      case Llm => llm
      case Vector => vector
      case Tools => tools
      case Compute => compute
      case Embeddings => embeddings
      case Egress => egress
    }

    /** `byLayer[layer] += amount` */
    function Plus(layer: Layer, amount: int): SpendByLayer {
      match layer
      case Llm => this.(llm := llm + amount)
      case Vector => this.(vector := vector + amount)
      case Tools => this.(tools := tools + amount)
      case Compute => this.(compute := compute + amount)
      case Embeddings => this.(embeddings := embeddings + amount)
      case Egress => this.(egress := egress + amount)
    }

    function Add(other: SpendByLayer): SpendByLayer {
      SpendByLayer(llm + other.llm, vector + other.vector, tools + other.tools,
                   compute + other.compute, embeddings + other.embeddings, egress + other.egress)
    }

    function Total(): int {
      llm + vector + tools + compute + embeddings + egress
    }
  }

  const ZERO_LAYERS := SpendByLayer(0, 0, 0, 0, 0, 0)

  datatype SettledDayPoint = SettledDayPoint(
    date: int, weekday: int, byLayer: SpendByLayer, totalMicroUsd: int,
    inPeriod: bool, settled: bool, inProgress: bool, awaitingLayers: seq<Layer>)

  datatype SettledSpendTotals = SettledSpendTotals(dayCount: nat, byLayer: SpendByLayer, totalMicroUsd: int)

  const EMPTY_TOTALS := SettledSpendTotals(0, ZERO_LAYERS, 0)

  datatype SettledRule = ConnectorLanding | DayComplete

  datatype SettledSpendSeries = SettledSpendSeries(
    scope: ForecastScope, windowStart: int, windowEnd: int, periodStart: int,
    days: seq<SettledDayPoint>, baselineDays: seq<int>, settledThrough: Option<int>,
    connectorLayers: seq<Layer>, rule: SettledRule,
    windowSettled: SettledSpendTotals, windowObserved: SettledSpendTotals,
    periodSettled: SettledSpendTotals, periodObserved: SettledSpendTotals,
    reconciledThrough: Option<int>)

  function AddDay(into: SettledSpendTotals, point: SettledDayPoint): SettledSpendTotals {
    SettledSpendTotals(into.dayCount + 1, into.byLayer.Add(point.byLayer), into.totalMicroUsd + point.totalMicroUsd)
  }

  /** The totals of the points that satisfy `p`, added up day by day. */
  function TotalsOver(points: seq<SettledDayPoint>, p: SettledDayPoint -> bool): SettledSpendTotals {
    if points == [] then EMPTY_TOTALS
    else
      var before, point := TotalsOver(points[..|points| - 1], p), points[|points| - 1];
      if p(point) then AddDay(before, point) else before
  }

  const AnyPoint: SettledDayPoint -> bool := (p: SettledDayPoint) => true
  const IsSettled: SettledDayPoint -> bool := (p: SettledDayPoint) => p.settled
  const IsInPeriod: SettledDayPoint -> bool := (p: SettledDayPoint) => p.inPeriod
  const IsSettledInPeriod: SettledDayPoint -> bool := (p: SettledDayPoint) => p.settled && p.inPeriod
  const DateOfPoint: SettledDayPoint -> int := (p: SettledDayPoint) => p.date
  const PointTotal: SettledDayPoint -> int := (p: SettledDayPoint) => p.totalMicroUsd

  function LayerAmount(layer: Layer): SettledDayPoint -> int {
    (p: SettledDayPoint) => p.byLayer.At(layer)
  }

  function ConnectorLayersIn(rows: seq<LandingRow>): seq<Layer> {
    Filter(CONNECTOR_LAYERS, Uses(rows))
  }

  function Uses(rows: seq<LandingRow>): Layer -> bool {
    (l: Layer) => exists i :: 0 <= i < |rows| && Landed(rows[i], l) > 0
  }

  /** `present.has(l)` for the day: the last landing row of the day decides. */
  function Present(rows: seq<LandingRow>, day: int, layer: Layer): bool {
    if rows == [] then false
    else if rows[|rows| - 1].day == day then Landed(rows[|rows| - 1], layer) > 0
    else Present(rows[..|rows| - 1], day, layer)
  }

  function Missing(rows: seq<LandingRow>, day: int): Layer -> bool {
    (l: Layer) => !Present(rows, day, l)
  }

  function EmptyPoint(b: Bounds, landing: seq<LandingRow>, day: int): SettledDayPoint {
    var inProgress := day == b.today;
    var awaiting := if inProgress then [] else Filter(ConnectorLayersIn(landing), Missing(landing, day));
    SettledDayPoint(day, WeekdayOf(day), ZERO_LAYERS, 0, day >= b.periodStart,
                    !inProgress && awaiting == [], inProgress, awaiting)
  }

  function RowsAt(rows: seq<CostRow>, day: int, layer: Layer): int {
    SumWhere(rows, InGroup(InGroup(Everything, RowDay, day), RowLayer, layer), RowCost)
  }

  function RowsOn(rows: seq<CostRow>, day: int): int {
    SumWhere(rows, InGroup(Everything, RowDay, day), RowCost)
  }

  function LayersOn(rows: seq<CostRow>, day: int): SpendByLayer {
    SpendByLayer(RowsAt(rows, day, Llm), RowsAt(rows, day, Vector), RowsAt(rows, day, Tools),
                 RowsAt(rows, day, Compute), RowsAt(rows, day, Embeddings), RowsAt(rows, day, Egress))
  }

  function PointOn(b: Bounds, rows: seq<CostRow>, landing: seq<LandingRow>, day: int): SettledDayPoint {
    EmptyPoint(b, landing, day).(byLayer := LayersOn(rows, day), totalMicroUsd := RowsOn(rows, day))
  }

  function Points(b: Bounds, rows: seq<CostRow>, landing: seq<LandingRow>): (points: seq<SettledDayPoint>)
    ensures |points| == b.windowDays
    ensures forall k :: 0 <= k < |points| ==> points[k] == PointOn(b, rows, landing, b.windowStart + k)
  {
    seq(b.windowDays, k requires 0 <= k => PointOn(b, rows, landing, b.windowStart + k))
  }

  /** The newest day with a reconciled row. */
  function ReconciledThrough(landing: seq<LandingRow>): Option<int> {
    if landing == [] then None
    else
      var before, r := ReconciledThrough(landing[..|landing| - 1]), landing[|landing| - 1];
      if r.reconciled > 0 && (before.None? || r.day > before.value) then Some(r.day) else before
  }

  function SeriesFrom(scope: ForecastScope, b: Bounds, rows: seq<CostRow>,
                      landing: seq<LandingRow>): SettledSpendSeries {
    var days := Points(b, rows, landing);
    var baseline := Map(Filter(days, IsSettled), DateOfPoint);
    var connectors := ConnectorLayersIn(landing);
    SettledSpendSeries(scope, b.windowStart, b.today, b.periodStart, days, baseline,
      if baseline != [] then Some(baseline[|baseline| - 1]) else None,
      connectors, if connectors != [] then ConnectorLanding else DayComplete,
      TotalsOver(days, IsSettled), TotalsOver(days, AnyPoint),
      TotalsOver(days, IsSettledInPeriod), TotalsOver(days, IsInPeriod), ReconciledThrough(landing))
  }

  // ---- The assembler, as its loops run ----

  /** The mutable totals object that `addDay` updates. */
  class RunningTotals {
    var dayCount: nat
    var byLayer: SpendByLayer
    var totalMicroUsd: int

    constructor ()
      ensures Value() == EMPTY_TOTALS
    {
      dayCount, byLayer, totalMicroUsd := 0, ZERO_LAYERS, 0;
    }

    function Value(): SettledSpendTotals
      reads this
    {
      SettledSpendTotals(dayCount, byLayer, totalMicroUsd)
    }

    method Add(point: SettledDayPoint)
      modifies this
      ensures Value() == AddDay(old(Value()), point)
    {
      var added := AddLayers(byLayer, point.byLayer);
      dayCount := dayCount + 1;
      byLayer := added;
      totalMicroUsd := totalMicroUsd + point.totalMicroUsd;
    }
  }

  /** `for (const l of LAYERS) into.byLayer[l] += point.byLayer[l]` */
  method AddLayers(into: SpendByLayer, point: SpendByLayer) returns (sum: SpendByLayer)
    ensures sum == into.Add(point)
  {
    hide SpendByLayer.At, SpendByLayer.Plus, SpendByLayer.Add;
    sum := into;
    for i := 0 to |LAYERS|
      invariant forall l :: sum.At(l) == into.At(l) + if l in LAYERS[..i] then point.At(l) else 0
    {
      forall l ensures sum.Plus(LAYERS[i], point.At(LAYERS[i])).At(l) == sum.At(l) + if l == LAYERS[i] then point.At(l)
        else 0 {
        PlusAt(sum, LAYERS[i], point.At(LAYERS[i]), l);
      }
      sum := sum.Plus(LAYERS[i], point.At(LAYERS[i]));
      LayersDistinct(i);
      assert LAYERS[..i + 1] == LAYERS[..i] + [LAYERS[i]];
    }
    AllLayers();
    assert LAYERS[..|LAYERS|] == LAYERS;
    forall l ensures into.Add(point).At(l) == into.At(l) + point.At(l) {
      AddAt(into, point, l);
    }
    SameLayers(sum, into.Add(point));
  }

  lemma {:induction false} PlusAt(a: SpendByLayer, layer: Layer, amount: int, l: Layer)
    ensures a.Plus(layer, amount).At(l) == a.At(l) + if l == layer then amount else 0
  {
  }

  lemma {:induction false} AddAt(a: SpendByLayer, b: SpendByLayer, l: Layer)
    ensures a.Add(b).At(l) == a.At(l) + b.At(l)
  {
  }

  lemma {:induction false} LayersDistinct(i: nat)
    requires i < |LAYERS|
    ensures LAYERS[i] !in LAYERS[..i]
  {
    assert LAYERS[0] == Llm && LAYERS[1] == Vector && LAYERS[2] == Tools && LAYERS[3] == Compute
        && LAYERS[4] == Embeddings && LAYERS[5] == Egress;
  }

  lemma {:induction false} AllLayers()
    ensures forall l: Layer :: l in LAYERS
  {
    assert LAYERS[0] == Llm && LAYERS[1] == Vector && LAYERS[2] == Tools && LAYERS[3] == Compute
        && LAYERS[4] == Embeddings && LAYERS[5] == Egress;
    forall l: Layer ensures l in LAYERS {
      match l
      case Llm =>
      case Vector =>
      case Tools =>
      case Compute =>
      case Embeddings =>
      case Egress =>
    }
  }

  lemma {:induction false} SameLayers(a: SpendByLayer, b: SpendByLayer)
    requires forall l :: a.At(l) == b.At(l)
    ensures a == b
  {
    assert a.At(Llm) == b.At(Llm) && a.At(Vector) == b.At(Vector) && a.At(Tools) == b.At(Tools);
    assert a.At(Compute) == b.At(Compute) && a.At(Embeddings) == b.At(Embeddings) && a.At(Egress) == b.At(Egress);
  }

  method ReadLanding(landing: seq<LandingRow>)
      returns (landed: map<int, set<Layer>>, usesConnector: set<Layer>, reconciledThrough: Option<int>)
    ensures forall day, l :: l in CONNECTOR_LAYERS ==> (Present(landing, day, l) <==> day in landed && l in landed[day])
    ensures forall l :: l in CONNECTOR_LAYERS ==> (l in usesConnector <==> Uses(landing)(l))
    ensures reconciledThrough == ReconciledThrough(landing)
  {
    landed, usesConnector, reconciledThrough := map[], {}, None;
    for i := 0 to |landing|
      invariant forall day, l :: l in CONNECTOR_LAYERS ==>
        (Present(landing[..i], day, l) <==> day in landed && l in landed[day])
      invariant forall l :: l in CONNECTOR_LAYERS ==>
        (l in usesConnector <==> exists k :: 0 <= k < i && Landed(landing[k], l) > 0)
      invariant reconciledThrough == ReconciledThrough(landing[..i])
    {
      var r := landing[i];
      assert landing[..i + 1][..i] == landing[..i];
      var present := (if r.compute > 0 then {Compute} else {}) + (if r.egress > 0 then {Egress} else {});
      usesConnector := usesConnector + present;
      landed := landed[r.day := present];
      if r.reconciled > 0 && (reconciledThrough.None? || r.day > reconciledThrough.value) {
        reconciledThrough := Some(r.day);
      }
    }
    assert landing[..|landing|] == landing;
  }

  method EmptySlots(b: Bounds, landing: seq<LandingRow>, landed: map<int, set<Layer>>, usesConnector: set<Layer>)
      returns (byDay: map<int, SettledDayPoint>, connectorLayers: seq<Layer>)
    requires forall day, l :: l in CONNECTOR_LAYERS ==>
      (Present(landing, day, l) <==> day in landed && l in landed[day])
    requires forall l :: l in CONNECTOR_LAYERS ==> (l in usesConnector <==> Uses(landing)(l))
    ensures connectorLayers == ConnectorLayersIn(landing)
    ensures forall day :: day in byDay <==> b.windowStart <= day < b.windowStart + b.windowDays
    ensures forall day :: day in byDay ==> byDay[day] == EmptyPoint(b, landing, day)
  {
    connectorLayers := Filter(CONNECTOR_LAYERS, (l: Layer) => l in usesConnector);
    FilterCongruent(CONNECTOR_LAYERS, (l: Layer) => l in usesConnector, Uses(landing));
    byDay := map[];
    for k := 0 to b.windowDays
      invariant forall day :: day in byDay <==> b.windowStart <= day < b.windowStart + k
      invariant forall day :: day in byDay ==> byDay[day] == EmptyPoint(b, landing, day)
    {
      var day := b.windowStart + k;
      var inProgress := day == b.today;
      var present := if day in landed then landed[day] else {};
      var lacks := (l: Layer) => l !in present;
      FilterCongruent(connectorLayers, lacks, Missing(landing, day));
      var awaiting := if inProgress then [] else Filter(connectorLayers, lacks);
      byDay := byDay[day := SettledDayPoint(day, WeekdayOf(day), ZERO_LAYERS, 0, day >= b.periodStart,
                                            !inProgress && awaiting == [], inProgress, awaiting)];
    }
  }

  lemma {:induction false} OneMoreRow(rows: seq<CostRow>, i: nat, p: CostRow -> bool)
    requires i < |rows|
    ensures SumWhere(rows[..i + 1], p, RowCost) == SumWhere(rows[..i], p, RowCost) + if p(rows[i]) then rows[i].cost
      else 0
  {
    assert rows[..i + 1] == rows[..i] + [rows[i]];
    WhereConcat(rows[..i], [rows[i]], p, RowCost);
  }

  lemma {:induction false} LayersOnOneMore(rows: seq<CostRow>, i: nat, day: int)
    requires i < |rows|
    ensures var r := rows[i];
      && RowsOn(rows[..i + 1], day) == RowsOn(rows[..i], day) + (if r.day == day then r.cost else 0)
      && LayersOn(rows[..i + 1], day)
           == if r.day == day then LayersOn(rows[..i], day).Plus(r.layer, r.cost) else LayersOn(rows[..i], day)
  {
    OneMoreRow(rows, i, InGroup(Everything, RowDay, day));
    forall l: Layer
      ensures RowsAt(rows[..i + 1], day, l)
           == RowsAt(rows[..i], day, l) + if rows[i].day == day && rows[i].layer == l then rows[i].cost else 0
    {
      OneMoreRow(rows, i, InGroup(InGroup(Everything, RowDay, day), RowLayer, l));
    }
  }

  /** A day's point after one more row. */
  function Grown(point: SettledDayPoint, r: CostRow): SettledDayPoint {
    if r.day == point.date then
      point.(byLayer := point.byLayer.Plus(r.layer, r.cost), totalMicroUsd := point.totalMicroUsd + r.cost)
    else point
  }

  lemma {:induction false} PointOneMore(b: Bounds, rows: seq<CostRow>, landing: seq<LandingRow>, i: nat, day: int)
    requires i < |rows|
    ensures PointOn(b, rows[..i + 1], landing, day) == Grown(PointOn(b, rows[..i], landing, day), rows[i])
  {
    LayersOnOneMore(rows, i, day);
    PointDates(b, landing);
    hide LayersOn, RowsOn, EmptyPoint, SpendByLayer.Plus;
  }

  lemma {:induction false} PointDates(b: Bounds, landing: seq<LandingRow>)
    ensures forall day :: EmptyPoint(b, landing, day).date == day
  {
  }

  method AddCosts(b: Bounds, rows: seq<CostRow>, landing: seq<LandingRow>, slots: map<int, SettledDayPoint>)
      returns (byDay: map<int, SettledDayPoint>)
    requires forall day :: day in slots ==> slots[day] == EmptyPoint(b, landing, day)
    ensures byDay.Keys == slots.Keys
    ensures forall day :: day in byDay ==> byDay[day] == PointOn(b, rows, landing, day)
  {
    byDay := slots;
    assert rows[..0] == [];
    forall day ensures PointOn(b, rows[..0], landing, day) == EmptyPoint(b, landing, day) {
      NoRowsYet(b, landing, day);
    }
    hide EmptyPoint, SumWhere, PointOn, SpendByLayer.Plus;
    PointDates(b, landing);
    for i := 0 to |rows|
      invariant byDay.Keys == slots.Keys
      invariant forall day :: day in byDay ==> byDay[day] == PointOn(b, rows[..i], landing, day)
    {
      var r := rows[i];
      forall day ensures PointOn(b, rows[..i + 1], landing, day) == Grown(PointOn(b, rows[..i], landing, day), r) {
        PointOneMore(b, rows, landing, i, day);
      }
      if r.day in byDay {
        var point := byDay[r.day];
        byDay := byDay[r.day :=
          point.(byLayer := point.byLayer.Plus(r.layer, r.cost), totalMicroUsd := point.totalMicroUsd + r.cost)];
        assert byDay[r.day] == Grown(point, r);
      }
    }
    assert rows[..|rows|] == rows;
  }

  lemma {:induction false} NoRowsYet(b: Bounds, landing: seq<LandingRow>, day: int)
    ensures PointOn(b, [], landing, day) == EmptyPoint(b, landing, day)
  {
  }

  lemma {:induction false} TotalsOneMore(points: seq<SettledDayPoint>, i: nat, p: SettledDayPoint -> bool)
    requires i < |points|
    ensures TotalsOver(points[..i + 1], p)
         == if p(points[i]) then AddDay(TotalsOver(points[..i], p), points[i]) else TotalsOver(points[..i], p)
  {
    assert points[..i + 1][..i] == points[..i];
  }

  method AddUp(days: seq<SettledDayPoint>)
      returns (windowSettled: RunningTotals, windowObserved: RunningTotals,
               periodSettled: RunningTotals, periodObserved: RunningTotals, baselineDays: seq<int>)
    ensures windowSettled.Value() == TotalsOver(days, IsSettled)
    ensures windowObserved.Value() == TotalsOver(days, AnyPoint)
    ensures periodSettled.Value() == TotalsOver(days, IsSettledInPeriod)
    ensures periodObserved.Value() == TotalsOver(days, IsInPeriod)
    ensures baselineDays == Map(Filter(days, IsSettled), DateOfPoint)
  {
    NoPoints(days);
    hide TotalsOver, Filter, AddDay, Map;
    windowSettled := new RunningTotals();
    windowObserved := new RunningTotals();
    periodSettled := new RunningTotals();
    periodObserved := new RunningTotals();
    baselineDays := [];
    for i := 0 to |days|
      invariant fresh(windowSettled) && fresh(windowObserved) && fresh(periodSettled) && fresh(periodObserved)
      invariant windowSettled != windowObserved && periodSettled != periodObserved
      invariant {windowSettled, windowObserved} !! {periodSettled, periodObserved}
      invariant windowSettled.Value() == TotalsOver(days[..i], IsSettled)
      invariant windowObserved.Value() == TotalsOver(days[..i], AnyPoint)
      invariant periodSettled.Value() == TotalsOver(days[..i], IsSettledInPeriod)
      invariant periodObserved.Value() == TotalsOver(days[..i], IsInPeriod)
      invariant baselineDays == Map(Filter(days[..i], IsSettled), DateOfPoint)
    {
      var point := days[i];
      TotalsOneMore(days, i, IsSettled);
      TotalsOneMore(days, i, AnyPoint);
      TotalsOneMore(days, i, IsSettledInPeriod);
      TotalsOneMore(days, i, IsInPeriod);
      CollectOneMore(days, i, IsSettled, DateOfPoint);
      windowObserved.Add(point);
      if point.inPeriod {
        periodObserved.Add(point);
      }
      if point.settled {
        baselineDays := baselineDays + [point.date];
        windowSettled.Add(point);
        if point.inPeriod {
          periodSettled.Add(point);
        }
      }
    }
    assert days[..|days|] == days;
  }

  method QuerySettledCostSeries(scope: ForecastScope, b: Bounds, rows: seq<CostRow>, landing: seq<LandingRow>)
      returns (series: SettledSpendSeries)
    ensures series == SeriesFrom(scope, b, rows, landing)
  {
    hide PointOn, EmptyPoint, TotalsOver, Filter, ReconciledThrough, ConnectorLayersIn, AddDay, Present, Uses, Map;
    var landed, usesConnector, reconciledThrough := ReadLanding(landing);
    var slots, connectorLayers := EmptySlots(b, landing, landed, usesConnector);
    var byDay := AddCosts(b, rows, landing, slots);
    var days := seq(b.windowDays, k requires 0 <= k < b.windowDays && b.windowStart + k in byDay =>
      byDay[b.windowStart + k]);
    assert days == Points(b, rows, landing);
    var windowSettled, windowObserved, periodSettled, periodObserved, baselineDays := AddUp(days);
    series := SettledSpendSeries(scope, b.windowStart, b.today, b.periodStart, days, baselineDays,
      if |baselineDays| > 0 then Some(baselineDays[|baselineDays| - 1]) else None,
      connectorLayers, if |connectorLayers| > 0 then ConnectorLanding else DayComplete,
      windowSettled.Value(), windowObserved.Value(), periodSettled.Value(), periodObserved.Value(), reconciledThrough);
  }

  lemma {:induction false} NoPoints(days: seq<SettledDayPoint>)
    ensures forall p: SettledDayPoint -> bool :: TotalsOver(days[..0], p) == EMPTY_TOTALS
    ensures Map(Filter(days[..0], IsSettled), DateOfPoint) == []
  {
  }
}
