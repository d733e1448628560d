/** What the settled series says about the spans it was read from. */
module SeriesTheorems {
  import opened Results
  import opened Sums
  import opened Layers
  import opened Calendar
  import opened SpendScopes
  import opened SettledSeries

  /** The scope's spend on one day. */
  function SpentOn(spans: seq<Span>, scope: ForecastScope, day: int): int {
    SumWhere(spans, InGroup(Matches(scope), SpanDay, day), SpanCost)
  }

  ghost predicate LayerUsed(spans: seq<Span>, b: Bounds, layer: Layer) {
    exists s :: s in spans && s.day >= b.windowStart && SpanLayer(s) == layer
  }

  /** The settlement rule, stated on the spans and without a scope: the day is over, and every
      connector layer the tenant uses in the window has landed at least one span for it. */
  ghost predicate DayIsSettled(spans: seq<Span>, b: Bounds, day: int) {
    day != b.today && forall l :: l in CONNECTOR_LAYERS && LayerUsed(spans, b, l) ==> LayerLanded(spans, l, day)
  }

  // ---- Money ----

  lemma {:induction false} RowsAtIsSpend(spans: seq<Span>, scope: ForecastScope, b: Bounds, rows: seq<CostRow>,
                                         day: int, layer: Layer)
    requires AnswersCost(spans, scope, b, rows) && day >= b.windowStart
    ensures RowsAt(rows, day, layer) == SpanSpend(spans, scope, day, layer)
  {
    var p := InGroup(InGroup(Everything, RowDay, day), RowLayer, layer);
    if exists r :: r in rows && r.day == day && r.layer == layer {
      var r :| r in rows && r.day == day && r.layer == layer;
      var k :| 0 <= k < |rows| && rows[k] == r;
      WhereOnly(rows, p, RowCost, k);
    } else {
      WhereNone(rows, p, RowCost);
      WhereNone(spans, InGroup(InGroup(Matches(scope), SpanDay, day), SpanLayer, layer), SpanCost);
    }
  }

  lemma {:induction false} LayersAddUp(f: Layer -> int)
    ensures SumBy(LAYERS, f) == f(Llm) + f(Vector) + f(Tools) + f(Compute) + f(Embeddings) + f(Egress)
  {
    assert LAYERS == [Llm] + ([Vector] + ([Tools] + ([Compute] + ([Embeddings] + [Egress]))));
    SumConcat([Llm], [Vector] + ([Tools] + ([Compute] + ([Embeddings] + [Egress]))), f);
    SumConcat([Vector], [Tools] + ([Compute] + ([Embeddings] + [Egress])), f);
    SumConcat([Tools], [Compute] + ([Embeddings] + [Egress]), f);
    SumConcat([Compute], [Embeddings] + [Egress], f);
    SumConcat([Embeddings], [Egress], f);
  }

  function AtLayer(b: SpendByLayer): Layer -> int {
    (l: Layer) => b.At(l)
  }

  lemma {:induction false} LayerTotal(b: SpendByLayer)
    ensures SumBy(LAYERS, AtLayer(b)) == b.Total()
  {
    LayersAddUp(AtLayer(b));
  }

  function LayerRows(rows: seq<CostRow>, day: int): Layer -> int {
    (l: Layer) => RowsAt(rows, day, l)
  }

  /** A point's layers add up to its total: every row falls in one of the six layers. */
  lemma {:induction false} PointLayersSum(rows: seq<CostRow>, day: int)
    ensures LayersOn(rows, day).Total() == RowsOn(rows, day)
  {
    AllLayers();
    GroupTotal(rows, InGroup(Everything, RowDay, day), LAYERS, RowLayer, RowCost, LayerRows(rows, day));
    LayersAddUp(LayerRows(rows, day));
  }

  lemma {:induction false} RowsOnIsSpend(spans: seq<Span>, scope: ForecastScope, b: Bounds, rows: seq<CostRow>,
                                         day: int)
    requires AnswersCost(spans, scope, b, rows) && day >= b.windowStart
    ensures RowsOn(rows, day) == SpentOn(spans, scope, day)
  {
    AllLayers();
    GroupTotal(rows, InGroup(Everything, RowDay, day), LAYERS, RowLayer, RowCost, LayerRows(rows, day));
    forall l | l in LAYERS ensures LayerRows(rows, day)(l) == SpanSpend(spans, scope, day, l) {
      RowsAtIsSpend(spans, scope, b, rows, day, l);
    }
    GroupTotal(spans, InGroup(Matches(scope), SpanDay, day), LAYERS, SpanLayer, SpanCost, LayerRows(rows, day));
  }

  // ---- Settlement ----

  lemma {:induction false} PresentIsSome(rows: seq<LandingRow>, day: int, layer: Layer)
    requires forall i, j :: 0 <= i < j < |rows| ==> rows[i].day != rows[j].day
    ensures Present(rows, day, layer) <==> exists r :: r in rows && r.day == day && Landed(r, layer) > 0
  {
    if rows != [] {
      var n := |rows| - 1;
      PresentIsSome(rows[..n], day, layer);
      assert forall r :: r in rows <==> r in rows[..n] || r == rows[n];
      assert forall r :: r in rows[..n] ==> exists i :: 0 <= i < n && rows[i] == r;
    }
  }

  lemma {:induction false} PresentIsLanded(spans: seq<Span>, b: Bounds, landing: seq<LandingRow>, day: int,
                                           layer: Layer)
    requires AnswersLanding(spans, b, landing) && layer in CONNECTOR_LAYERS && day >= b.windowStart
    ensures Present(landing, day, layer) <==> LayerLanded(spans, layer, day)
  {
    PresentIsSome(landing, day, layer);
    if LayerLanded(spans, layer, day) {
      var s :| s in spans && s.day == day && SpanLayer(s) == layer;
      var r :| r in landing && r.day == day;
      assert Landed(r, layer) > 0;
    }
  }

  lemma {:induction false} UsedIsUses(spans: seq<Span>, b: Bounds, landing: seq<LandingRow>, layer: Layer)
    requires AnswersLanding(spans, b, landing) && layer in CONNECTOR_LAYERS && LayerUsed(spans, b, layer)
    ensures Uses(landing)(layer)
  {
    var s :| s in spans && s.day >= b.windowStart && SpanLayer(s) == layer;
    var r :| r in landing && r.day == s.day;
    assert LayerLanded(spans, layer, r.day);
    var i :| 0 <= i < |landing| && landing[i] == r;
    assert Landed(landing[i], layer) > 0;
  }

  lemma {:induction false} UsesIsUsed(spans: seq<Span>, b: Bounds, landing: seq<LandingRow>, layer: Layer)
    requires AnswersLanding(spans, b, landing) && layer in CONNECTOR_LAYERS
    ensures Uses(landing)(layer) <==> LayerUsed(spans, b, layer)
  {
    if LayerUsed(spans, b, layer) {
      UsedIsUses(spans, b, landing, layer);
    }
    if Uses(landing)(layer) {
      UsesMeansUsed(spans, b, landing, layer);
    }
  }

  lemma {:induction false} UsesMeansUsed(spans: seq<Span>, b: Bounds, landing: seq<LandingRow>, layer: Layer)
    requires AnswersLanding(spans, b, landing) && layer in CONNECTOR_LAYERS && Uses(landing)(layer)
    ensures LayerUsed(spans, b, layer)
  {
    var i :| 0 <= i < |landing| && Landed(landing[i], layer) > 0;
    assert landing[i] in landing;
    assert LayerLanded(spans, layer, landing[i].day);
    var s :| s in spans && s.day == landing[i].day && SpanLayer(s) == layer;
    assert s.day >= b.windowStart;
  }

  lemma {:induction false} SettledFlagIs(spans: seq<Span>, b: Bounds, landing: seq<LandingRow>, day: int)
    requires AnswersLanding(spans, b, landing) && day >= b.windowStart
    ensures EmptyPoint(b, landing, day).settled <==> DayIsSettled(spans, b, day)
  {
    var connectors := ConnectorLayersIn(landing);
    var awaiting := Filter(connectors, Missing(landing, day));
    forall l | l in CONNECTOR_LAYERS
      ensures (l in connectors <==> LayerUsed(spans, b, l))
        && (Present(landing, day, l) <==> LayerLanded(spans, l, day))
    {
      UsesIsUsed(spans, b, landing, l);
      PresentIsLanded(spans, b, landing, day, l);
    }
    assert awaiting == [] <==> forall l :: l in connectors ==> Present(landing, day, l) by {
      if awaiting != [] {
        assert awaiting[0] in awaiting;
      }
    }
  }

  lemma {:induction false} LayersOnAre(spans: seq<Span>, scope: ForecastScope, b: Bounds, rows: seq<CostRow>, day: int)
    requires AnswersCost(spans, scope, b, rows) && day >= b.windowStart
    ensures forall l :: LayersOn(rows, day).At(l) == SpanSpend(spans, scope, day, l)
  {
    forall l ensures LayersOn(rows, day).At(l) == SpanSpend(spans, scope, day, l) {
      RowsAtIsSpend(spans, scope, b, rows, day, l);
    }
  }

  lemma {:induction false} EmptyPointShape(b: Bounds, landing: seq<LandingRow>, day: int)
    ensures var p := EmptyPoint(b, landing, day);
      p.date == day && p.weekday == WeekdayOf(day) && p.inPeriod == (day >= b.periodStart)
        && p.inProgress == (day == b.today)
  {
  }

  lemma {:induction false} ConnectorsAre(spans: seq<Span>, b: Bounds, landing: seq<LandingRow>)
    requires AnswersLanding(spans, b, landing)
    ensures forall l :: l in ConnectorLayersIn(landing) <==> l in CONNECTOR_LAYERS && LayerUsed(spans, b, l)
  {
    hide AnswersLanding, LayerUsed, Uses;
    forall l | l in CONNECTOR_LAYERS ensures Uses(landing)(l) <==> LayerUsed(spans, b, l) {
      UsesIsUsed(spans, b, landing, l);
    }
  }

  /** What a day waits for: the connector layers in use that have landed nothing for it. The day in
      progress waits for none by name. */
  ghost predicate Awaits(p: SettledDayPoint, spans: seq<Span>, b: Bounds) {
    forall l :: l in p.awaitingLayers <==>
      && p.date != b.today && l in CONNECTOR_LAYERS
      && LayerUsed(spans, b, l) && !LayerLanded(spans, l, p.date)
  }

  lemma {:induction false} AwaitingAre(spans: seq<Span>, b: Bounds, landing: seq<LandingRow>, day: int)
    requires AnswersLanding(spans, b, landing) && day >= b.windowStart
    ensures Awaits(EmptyPoint(b, landing, day), spans, b)
  {
    ConnectorsAre(spans, b, landing);
    hide AnswersLanding, LayerUsed, LayerLanded, ConnectorLayersIn, Present, WeekdayOf;
    forall l | l in CONNECTOR_LAYERS ensures Present(landing, day, l) <==> LayerLanded(spans, l, day) {
      PresentIsLanded(spans, b, landing, day, l);
    }
  }

  /** Each day of the series, in terms of the spans: what the scope spent on it, split over the layers
      with nothing left over, and a settled flag that depends on no scope. */
  lemma {:induction false} PointDescribesDay(spans: seq<Span>, scope: ForecastScope, b: Bounds, rows: seq<CostRow>,
                                             landing: seq<LandingRow>, k: nat)
    requires AnswersCost(spans, scope, b, rows) && AnswersLanding(spans, b, landing) && k < b.windowDays
    ensures var p, day := SeriesFrom(scope, b, rows, landing).days[k], b.windowStart + k;
      && p.date == day && p.weekday == WeekdayOf(day)
      && p.totalMicroUsd == SpentOn(spans, scope, day)
      && (forall l :: p.byLayer.At(l) == SpanSpend(spans, scope, day, l))
      && p.byLayer.Total() == p.totalMicroUsd
      && (p.inPeriod <==> day >= b.periodStart) && (p.inProgress <==> day == b.today)
      && (p.settled <==> DayIsSettled(spans, b, day)) && Awaits(p, spans, b)
  {
    hide EmptyPoint, LayersOn, RowsOn, Filter, TotalsOver, WeekdayOf, LayerUsed, LayerLanded, DayIsSettled, SpanSpend,
         SpentOn, AnswersCost,
         AnswersLanding;
    hide ReconciledThrough, ConnectorLayersIn, SpendByLayer.At, SpendByLayer.Total;
    var day := b.windowStart + k;
    RowsOnIsSpend(spans, scope, b, rows, day);
    PointLayersSum(rows, day);
    LayersOnAre(spans, scope, b, rows, day);
    SettledFlagIs(spans, b, landing, day);
    AwaitingAre(spans, b, landing, day);
    EmptyPointShape(b, landing, day);
  }

  // ---- Totals ----

  lemma {:induction false} TotalsSum(points: seq<SettledDayPoint>, p: SettledDayPoint -> bool)
    ensures TotalsOver(points, p).totalMicroUsd == SumWhere(points, p, PointTotal)
    ensures TotalsOver(points, p).dayCount == |Filter(points, p)|
  {
    if points != [] {
      var n := |points| - 1;
      TotalsSum(points[..n], p);
      assert points == points[..n] + [points[n]];
      WhereConcat(points[..n], [points[n]], p, PointTotal);
      FilterConcat(points[..n], [points[n]], p);
    }
  }

  lemma {:induction false} TotalsLayers(points: seq<SettledDayPoint>, p: SettledDayPoint -> bool)
    requires forall x :: x in points ==> x.byLayer.Total() == x.totalMicroUsd
    ensures TotalsOver(points, p).byLayer.Total() == TotalsOver(points, p).totalMicroUsd
  {
    if points != [] {
      TotalsLayers(points[..|points| - 1], p);
    }
  }

  /** Every layer's total is the sum of that layer over the days counted. */
  lemma {:induction false} TotalsByLayer(points: seq<SettledDayPoint>, p: SettledDayPoint -> bool, layer: Layer)
    ensures TotalsOver(points, p).byLayer.At(layer) == SumWhere(points, p, LayerAmount(layer))
  {
    if points != [] {
      var n := |points| - 1;
      TotalsByLayer(points[..n], p, layer);
      assert points == points[..n] + [points[n]];
      WhereConcat(points[..n], [points[n]], p, LayerAmount(layer));
    }
  }

  function IsSettledPeriodDay(b: Bounds, landing: seq<LandingRow>): int -> bool {
    (day: int) => day >= b.periodStart && EmptyPoint(b, landing, day).settled
  }

  function WindowDayList(b: Bounds): (days: seq<int>)
    ensures |days| == b.windowDays && forall k :: 0 <= k < |days| ==> days[k] == b.windowStart + k
  {
    seq(b.windowDays, k => b.windowStart + k)
  }

  /** The settled days of the period. No scope appears here: every scope shares them. */
  function SettledPeriodDays(b: Bounds, landing: seq<LandingRow>): seq<int> {
    Filter(WindowDayList(b), IsSettledPeriodDay(b, landing))
  }

  function SpentOnDay(spans: seq<Span>, scope: ForecastScope): int -> int {
    (day: int) => SpentOn(spans, scope, day)
  }

  ghost function CountsDay(spans: seq<Span>, b: Bounds): int -> bool {
    (day: int) => day >= b.periodStart && DayIsSettled(spans, b, day)
  }

  /** The settled days of the period, from the spans alone. */
  ghost function SettledDaysOf(spans: seq<Span>, b: Bounds): seq<int> {
    Filter(WindowDayList(b), CountsDay(spans, b))
  }

  ghost function SettledOn(spans: seq<Span>, b: Bounds): int -> bool {
    (day: int) => DayIsSettled(spans, b, day)
  }

  function FromStart(b: Bounds): int -> bool {
    (day: int) => day >= b.periodStart
  }

  const AnyDay: int -> bool := (day: int) => true

  /** Totals over some days of the window: their count, the scope's spend on them, and that spend layer by
      layer, all from the spans. */
  ghost predicate TotalsHold(t: SettledSpendTotals, spans: seq<Span>, scope: ForecastScope, days: seq<int>) {
    && t.dayCount == |days|
    && t.totalMicroUsd == SumWhere(spans, InGroups(Matches(scope), SpanDay, days), SpanCost)
    && forall layer :: t.byLayer.At(layer)
         == SumWhere(spans, InGroups(InGroup(Matches(scope), SpanLayer, layer), SpanDay, days), SpanCost)
  }

  /** Points and days counted alike. */
  ghost predicate CountAlike(b: Bounds, rows: seq<CostRow>, landing: seq<LandingRow>, p: SettledDayPoint -> bool,
                             q: int -> bool)
  {
    forall day :: b.windowStart <= day ==> (p(PointOn(b, rows, landing, day)) <==> q(day))
  }

  lemma {:induction false} FilterAlike<S(!new), T(!new)>(s: seq<S>, t: seq<T>, p: S -> bool, q: T -> bool)
    requires |s| == |t| && forall i :: 0 <= i < |s| ==> p(s[i]) == q(t[i])
    ensures |Filter(s, p)| == |Filter(t, q)|
  {
    if s != [] {
      FilterAlike(s[1..], t[1..], p, q);
    }
  }

  /** Summing an amount over the points counted is summing it over the spans of those days. */
  lemma {:induction false} PointsAreSpend(spans: seq<Span>, m: Span -> bool, b: Bounds, rows: seq<CostRow>,
                                          landing: seq<LandingRow>, p: SettledDayPoint -> bool, q: int -> bool,
                                          amount: SettledDayPoint -> int, spent: int -> int)
    requires CountAlike(b, rows, landing, p, q)
    requires forall day :: b.windowStart <= day ==> amount(PointOn(b, rows, landing, day)) == spent(day)
    requires forall day :: spent(day) == SumWhere(spans, InGroup(m, SpanDay, day), SpanCost)
    ensures SumWhere(Points(b, rows, landing), p, amount)
         == SumWhere(spans, InGroups(m, SpanDay, Filter(WindowDayList(b), q)), SpanCost)
  {
    hide SumWhere, SumBy, Filter, PointOn;
    var points, days := Points(b, rows, landing), WindowDayList(b);
    WhereIsGuarded(points, p, amount);
    SumPointwise(points, days, Guarded(p, amount), Guarded(q, spent));
    WhereIsGuarded(days, q, spent);
    WhereIsFilter(days, q, spent);
    FilterKeepsDistinct(days, q);
    GroupSum(spans, m, Filter(days, q), SpanDay, SpanCost, spent);
  }

  function SpentOnLayer(spans: seq<Span>, scope: ForecastScope, layer: Layer): int -> int {
    (day: int) => SpanSpend(spans, scope, day, layer)
  }

  lemma {:induction false} LayerSpendOn(spans: seq<Span>, scope: ForecastScope, day: int, layer: Layer)
    ensures SpanSpend(spans, scope, day, layer)
         == SumWhere(spans, InGroup(InGroup(Matches(scope), SpanLayer, layer), SpanDay, day), SpanCost)
  {
    WhereCongruent(spans, InGroup(InGroup(Matches(scope), SpanDay, day), SpanLayer, layer),
                   InGroup(InGroup(Matches(scope), SpanLayer, layer), SpanDay, day), SpanCost, SpanCost);
  }

  lemma {:induction false} PointAmounts(spans: seq<Span>, scope: ForecastScope, b: Bounds, rows: seq<CostRow>,
                                        landing: seq<LandingRow>, day: int)
    requires AnswersCost(spans, scope, b, rows) && day >= b.windowStart
    ensures var p := PointOn(b, rows, landing, day);
      && p.totalMicroUsd == SpentOn(spans, scope, day)
      && forall layer :: p.byLayer.At(layer) == SpanSpend(spans, scope, day, layer)
  {
    hide RowsOn, LayersOn, SpentOn, SpanSpend, SpendByLayer.At, EmptyPoint;
    RowsOnIsSpend(spans, scope, b, rows, day);
    LayersOnAre(spans, scope, b, rows, day);
  }

  lemma {:induction false} TotalsAre(spans: seq<Span>, scope: ForecastScope, b: Bounds, rows: seq<CostRow>,
                                     landing: seq<LandingRow>, p: SettledDayPoint -> bool, q: int -> bool)
    requires AnswersCost(spans, scope, b, rows) && CountAlike(b, rows, landing, p, q)
    ensures TotalsHold(TotalsOver(Points(b, rows, landing), p), spans, scope, Filter(WindowDayList(b), q))
  {
    hide SumWhere, Filter, TotalsOver, PointOn, AnswersCost, SpentOn, SpanSpend, SpendByLayer.At;
    var points := Points(b, rows, landing);
    TotalsSum(points, p);
    FilterAlike(points, WindowDayList(b), p, q);
    forall day | day >= b.windowStart
      ensures var x := PointOn(b, rows, landing, day);
        && x.totalMicroUsd == SpentOn(spans, scope, day)
        && forall layer :: x.byLayer.At(layer) == SpanSpend(spans, scope, day, layer)
    {
      PointAmounts(spans, scope, b, rows, landing, day);
    }
    SpentIs(spans, scope);
    PointsAreSpend(spans, Matches(scope), b, rows, landing, p, q, PointTotal, SpentOnDay(spans, scope));
    forall layer
      ensures TotalsOver(points, p).byLayer.At(layer) == SumWhere(spans,
        InGroups(InGroup(Matches(scope), SpanLayer, layer), SpanDay, Filter(WindowDayList(b), q)), SpanCost)
    {
      TotalsByLayer(points, p, layer);
      forall day ensures SpentOnLayer(spans, scope, layer)(day)
        == SumWhere(spans, InGroup(InGroup(Matches(scope), SpanLayer, layer), SpanDay, day), SpanCost)
      {
        LayerSpendOn(spans, scope, day, layer);
      }
      PointsAreSpend(spans, InGroup(Matches(scope), SpanLayer, layer), b, rows, landing, p, q, LayerAmount(layer),
                     SpentOnLayer(spans, scope, layer));
    }
  }

  lemma {:induction false} SpentIs(spans: seq<Span>, scope: ForecastScope)
    ensures forall day ::
      SpentOnDay(spans, scope)(day) == SumWhere(spans, InGroup(Matches(scope), SpanDay, day), SpanCost)
  {
  }

  /** The four totals of the series, from the spans: what the scope spent on the settled days and on all
      days, of the window and of the period, layer by layer. */
  lemma {:induction false} SeriesTotalsAre(spans: seq<Span>, scope: ForecastScope, b: Bounds, rows: seq<CostRow>,
                                           landing: seq<LandingRow>)
    requires AnswersCost(spans, scope, b, rows) && AnswersLanding(spans, b, landing)
    ensures var series, days := SeriesFrom(scope, b, rows, landing), WindowDayList(b);
      && TotalsHold(series.windowSettled, spans, scope, Filter(days, SettledOn(spans, b)))
      && TotalsHold(series.windowObserved, spans, scope, days)
      && TotalsHold(series.periodSettled, spans, scope, SettledDaysOf(spans, b))
      && TotalsHold(series.periodObserved, spans, scope, Filter(days, FromStart(b)))
  {
    hide TotalsHold, Filter, TotalsOver, AnswersCost, RowsOn, LayersOn, ReconciledThrough, ConnectorLayersIn,
         EmptyPoint,
         DayIsSettled, AnswersLanding;
    forall day | day >= b.windowStart
      ensures var p := PointOn(b, rows, landing, day);
        && (p.settled <==> DayIsSettled(spans, b, day)) && (p.inPeriod <==> day >= b.periodStart)
    {
      SettledFlagIs(spans, b, landing, day);
      EmptyPointShape(b, landing, day);
    }
    TotalsAre(spans, scope, b, rows, landing, IsSettled, SettledOn(spans, b));
    TotalsAre(spans, scope, b, rows, landing, AnyPoint, AnyDay);
    TotalsAre(spans, scope, b, rows, landing, IsSettledInPeriod, CountsDay(spans, b));
    TotalsAre(spans, scope, b, rows, landing, IsInPeriod, FromStart(b));
    FilterAll(WindowDayList(b), AnyDay);
  }

  /** Settled month-to-date is exactly the spend of the scope's spans on the settled days of the period,
      and so is each layer's part of it. */
  lemma {:induction false} PeriodSettledIsSpend(spans: seq<Span>, scope: ForecastScope, b: Bounds, rows: seq<CostRow>,
                                                landing: seq<LandingRow>)
    requires AnswersCost(spans, scope, b, rows)
    ensures var total := SeriesFrom(scope, b, rows, landing).periodSettled;
      && TotalsHold(total, spans, scope, SettledPeriodDays(b, landing))
      && total.totalMicroUsd
           == SumWhere(spans, InGroups(Matches(scope), SpanDay, SettledPeriodDays(b, landing)), SpanCost)
  {
    hide Filter, TotalsOver, AnswersCost, RowsOn, LayersOn, ReconciledThrough, ConnectorLayersIn, SumWhere;
    TotalsAre(spans, scope, b, rows, landing, IsSettledInPeriod, IsSettledPeriodDay(b, landing));
  }

  // ---- The rest of the series ----

  ghost predicate ReconciledOn(spans: seq<Span>, day: int) {
    exists s :: s in spans && s.day == day && s.reconciled
  }

  lemma {:induction false} NewestReconciled(landing: seq<LandingRow>)
    ensures var newest := ReconciledThrough(landing);
      && (newest.None? <==> forall r :: r in landing ==> r.reconciled == 0)
      && (newest.Some? ==>
           && (exists r :: r in landing && r.reconciled > 0 && r.day == newest.value)
           && forall r :: r in landing && r.reconciled > 0 ==> r.day <= newest.value)
  {
    if landing != [] {
      var before, last := landing[..|landing| - 1], landing[|landing| - 1];
      NewestReconciled(before);
      assert forall r :: r in landing <==> r in before || r == last;
    }
  }

  /** Everything else the series reports, from the spans: which layers settlement waits on and by which
      rule, the settled days in order and the newest of them, and the newest day with a reconciled span. */
  lemma {:induction false} SeriesReports(spans: seq<Span>, scope: ForecastScope, b: Bounds, rows: seq<CostRow>,
                                         landing: seq<LandingRow>)
    requires AnswersLanding(spans, b, landing)
    ensures var series := SeriesFrom(scope, b, rows, landing);
      && series.scope == scope && series.windowStart == b.windowStart && series.windowEnd == b.today
      && series.periodStart == b.periodStart
      && (forall l :: l in series.connectorLayers <==> l in CONNECTOR_LAYERS && LayerUsed(spans, b, l))
      && (series.rule == DayComplete <==> forall l :: l in CONNECTOR_LAYERS ==> !LayerUsed(spans, b, l))
      && series.baselineDays == Filter(WindowDayList(b), SettledOn(spans, b))
      && series.settledThrough ==
           (if series.baselineDays == [] then None else Some(series.baselineDays[|series.baselineDays| - 1]))
      && NewestDay(series.reconciledThrough, spans, b)
  {
    hide AnswersLanding, Points, Filter, Map, TotalsOver, ReconciledThrough, ConnectorLayersIn, LayerUsed, NewestDay,
         SettledOn;
    ConnectorsAre(spans, b, landing);
    NoConnectors(spans, b, landing);
    ReconciledIs(spans, b, landing);
    BaselineAre(spans, b, rows, landing);
  }

  lemma {:induction false} NoConnectors(spans: seq<Span>, b: Bounds, landing: seq<LandingRow>)
    requires AnswersLanding(spans, b, landing)
    ensures ConnectorLayersIn(landing) == [] <==> forall l :: l in CONNECTOR_LAYERS ==> !LayerUsed(spans, b, l)
  {
    hide AnswersLanding, ConnectorLayersIn, LayerUsed;
    ConnectorsAre(spans, b, landing);
    var connectors := ConnectorLayersIn(landing);
    assert connectors != [] ==> connectors[0] in connectors;
  }

  /** The newest day of the window with a reconciled span. */
  ghost predicate NewestDay(newest: Option<int>, spans: seq<Span>, b: Bounds) {
    && (newest.None? <==> forall d :: d >= b.windowStart ==> !ReconciledOn(spans, d))
    && (newest.Some? ==>
         && newest.value >= b.windowStart && ReconciledOn(spans, newest.value)
         && forall d :: d >= b.windowStart && ReconciledOn(spans, d) ==> d <= newest.value)
  }

  lemma {:induction false} ReconciledIs(spans: seq<Span>, b: Bounds, landing: seq<LandingRow>)
    requires AnswersLanding(spans, b, landing)
    ensures NewestDay(ReconciledThrough(landing), spans, b)
  {
    NewestReconciled(landing);
    ReconciledRows(spans, b, landing);
    hide AnswersLanding, ReconciledThrough, ReconciledOn;
  }

  lemma {:induction false} ReconciledRows(spans: seq<Span>, b: Bounds, landing: seq<LandingRow>)
    requires AnswersLanding(spans, b, landing)
    ensures forall r :: r in landing ==> r.day >= b.windowStart && (r.reconciled > 0 <==> ReconciledOn(spans, r.day))
    ensures forall d :: d >= b.windowStart && ReconciledOn(spans, d) ==>
      exists r :: r in landing && r.day == d && r.reconciled > 0
  {
    forall d | d >= b.windowStart && ReconciledOn(spans, d)
      ensures exists r :: r in landing && r.day == d && r.reconciled > 0
    {
      var s :| s in spans && s.day == d && s.reconciled;
      var r :| r in landing && r.day == s.day;
    }
  }

  lemma {:induction false} MapFilterAlike(points: seq<SettledDayPoint>, days: seq<int>, p: SettledDayPoint -> bool,
                                          q: int -> bool)
    requires |points| == |days|
    requires forall i :: 0 <= i < |days| ==> p(points[i]) == q(days[i]) && points[i].date == days[i]
    ensures Map(Filter(points, p), DateOfPoint) == Filter(days, q)
  {
    if points != [] {
      var later := Filter(points[1..], p);
      MapFilterAlike(points[1..], days[1..], p, q);
      assert Map([points[0]] + later, DateOfPoint) == [days[0]] + Map(later, DateOfPoint);
    }
  }

  lemma {:induction false} BaselineAre(spans: seq<Span>, b: Bounds, rows: seq<CostRow>, landing: seq<LandingRow>)
    requires AnswersLanding(spans, b, landing)
    ensures Map(Filter(Points(b, rows, landing), IsSettled), DateOfPoint)
      == Filter(WindowDayList(b), SettledOn(spans, b))
  {
    hide AnswersLanding, EmptyPoint, RowsOn, LayersOn, Filter, DayIsSettled;
    forall day | day >= b.windowStart
      ensures var p := PointOn(b, rows, landing, day); p.date == day && (p.settled <==> DayIsSettled(spans, b, day))
    {
      SettledFlagIs(spans, b, landing, day);
      EmptyPointShape(b, landing, day);
    }
    MapFilterAlike(Points(b, rows, landing), WindowDayList(b), IsSettled, SettledOn(spans, b));
  }
}
