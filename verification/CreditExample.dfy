/** A tenant whose second of January 1970 shows one settled day: ten dollars of search, and a credit of
    eight for chat. The search slice exceeds the whole, and the page says that its spend does not
    reconcile. */
module CreditExample {
  import opened Money
  import opened Results
  import opened Sums
  import opened Sorting
  import opened Layers
  import opened Calendar
  import opened SpendScopes
  import opened SettledSeries
  import opened SeriesTheorems
  import opened Forecast
  import opened Budgets
  import opened Burndown
  import opened BurndownTheorems
  import opened ScopedForecast
  import opened ScopedTheorems

  const TODAY := 1
  const BOUNDS := Bounds(-28, 0, TODAY, 30)
  const SEARCH_SCOPE := ForecastScope(FeatureKind, "search")

  const CREDITED: seq<Span> := [
    Span(0, "llm", 10_000_000, "search", "m", "m", false), Span(0, "llm", -8_000_000, "chat", "m", "m", false)]

  lemma {:induction false} January()
    ensures InRange(TODAY) && BoundsAt(TODAY) == BOUNDS
  {
    JanuaryDays();
    CivilOfDayNumber(Civil(1970, 1, 2));
    hide CivilOf, InRange, DateUTC, DayNumber;
  }

  lemma {:induction false} JanuaryDays()
    ensures DayNumber(Civil(1970, 1, 2)) == TODAY
  {
    hide CivilOf;
  }

  // ---- The spans, day by day ----

  lemma {:induction false} CreditedSpend()
    ensures ScopeSpend(CREDITED, TENANT_SCOPE, [0]) == 2_000_000
      && ScopeSpend(CREDITED, SEARCH_SCOPE, [0]) == 10_000_000
    ensures Outside(SEARCH_SCOPE, CREDITED, [0]) == -8_000_000
  {
    assert CREDITED[1..] == [CREDITED[1]] && "search"[0] != "chat"[0];
  }

  lemma {:induction false} FilterOnly(days: seq<int>, p: int -> bool, k: nat)
    requires k < |days| && forall i :: 0 <= i < |days| ==> (p(days[i]) <==> i == k)
    ensures Filter(days, p) == [days[k]]
  {
    assert days == days[..k] + ([days[k]] + days[k + 1..]);
    FilterConcat(days[..k], [days[k]] + days[k + 1..], p);
    FilterConcat([days[k]], days[k + 1..], p);
    FilterNone(days[..k], p);
    FilterNone(days[k + 1..], p);
    FilterAll([days[k]], p);
  }

  lemma {:induction false} OneSettledDay()
    ensures SettledDaysOf(CREDITED, BOUNDS) == [0]
  {
    NoConnectorUsed();
    hide DayIsSettled, Filter, CREDITED;
    FilterOnly(WindowDayList(BOUNDS), CountsDay(CREDITED, BOUNDS), 28);
  }

  lemma {:induction false} NoConnectorUsed()
    ensures forall l :: l in CONNECTOR_LAYERS ==> !LayerUsed(CREDITED, BOUNDS, l)
    ensures forall d :: DayIsSettled(CREDITED, BOUNDS, d) <==> d != TODAY
  {
  }

  // ---- What the reads answer ----

  function SpendOfScope(scope: ForecastScope): int {
    SpanSpend(CREDITED, scope, 0, Llm)
  }

  function RowsFor(scope: ForecastScope): seq<CostRow> {
    [CostRow(0, Llm, SpendOfScope(scope))]
  }

  const LANDING: seq<LandingRow> := [LandingRow(0, 0, 0, 0)]

  lemma {:induction false} ReadsAnswer(scope: ForecastScope)
    ensures AnswersCost(CREDITED, scope, BOUNDS, RowsFor(scope)) && AnswersLanding(CREDITED, BOUNDS, LANDING)
  {
    hide SpanSpend;
    assert RowsFor(scope)[0] in RowsFor(scope) && LANDING[0] in LANDING;
  }

  lemma {:induction false} OneRow(row: CostRow, p: CostRow -> bool)
    ensures SumWhere([row], p, RowCost) == if p(row) then row.cost else 0
  {
    assert [row][1..] == [];
  }

  ghost predicate PointSafe(p: SettledDayPoint) {
    IsSafeInteger(p.totalMicroUsd) && forall l :: l in LAYERS ==> IsSafeInteger(p.byLayer.At(l))
  }

  lemma {:induction false} PointIsSafe(scope: ForecastScope, day: int)
    requires IsSafeInteger(SpendOfScope(scope))
    ensures PointSafe(PointOn(BOUNDS, RowsFor(scope), LANDING, day))
  {
    var row, onDay := CostRow(0, Llm, SpendOfScope(scope)), InGroup(Everything, RowDay, day);
    hide SpendOfScope, EmptyPoint;
    OneRow(row, onDay);
    OneRow(row, InGroup(onDay, RowLayer, Llm));
    OneRow(row, InGroup(onDay, RowLayer, Vector));
    OneRow(row, InGroup(onDay, RowLayer, Tools));
    OneRow(row, InGroup(onDay, RowLayer, Compute));
    OneRow(row, InGroup(onDay, RowLayer, Embeddings));
    OneRow(row, InGroup(onDay, RowLayer, Egress));
  }

  function SeriesOf(scope: ForecastScope): SettledSpendSeries {
    SeriesFrom(scope, BOUNDS, RowsFor(scope), LANDING)
  }

  lemma {:induction false} SeriesShape(scope: ForecastScope)
    ensures SeriesOf(scope).periodStart == 0 && SeriesOf(scope).windowEnd == TODAY
    ensures SeriesOf(scope).days == Points(BOUNDS, RowsFor(scope), LANDING)
  {
    hide Points, TotalsOver, Filter, ReconciledThrough, ConnectorLayersIn, RowsFor;
  }

  lemma {:induction false} SeriesIsWellBuilt(scope: ForecastScope)
    ensures DatesIncrease(SeriesOf(scope).days)
  {
    January();
    hide BoundsAt, SeriesFrom, InRange;
    BuiltSeriesIsWellBuilt(scope, TODAY, RowsFor(scope), LANDING);
    hide RowsFor, DatesIncrease;
  }

  lemma {:induction false} FedAreDays(days: seq<SettledDayPoint>)
    ensures forall p :: p in Fed(days) ==> p in days
  {
  }

  lemma {:induction false} SectionBuilt(scope: ForecastScope, sqrt: real -> real, idLe: (string, string) -> bool)
    requires IsSafeInteger(SpendOfScope(scope)) && InRange(SeriesOf(scope).periodStart)
    ensures SectionOf(SeriesOf(scope), [], scope, sqrt, idLe).Ok?
  {
    SeriesShape(scope);
    SeriesIsWellBuilt(scope);
    FedAreDays(SeriesOf(scope).days);
    NoBudgetChosen(KindName(scope.kind), scope.value, TODAY, idLe);
    hide SectionOf, RowsFor, InRange, SeriesOf, Fed, PointOn, DatesIncrease, SelectBudget, SpendOfScope;
    var series := SeriesOf(scope);
    forall p | p in series.days ensures PointSafe(p) {
      var k :| 0 <= k < |series.days| && series.days[k] == p;
      PointIsSafe(scope, BOUNDS.windowStart + k);
    }
    hide IsSafeInteger;
    SectionBuiltExactly(series, [], scope, sqrt, idLe);
  }

  lemma {:induction false} NoBudgetChosen(scopeKind: string, scopeValue: string, today: int,
                                          idLe: (string, string) -> bool)
    ensures SelectBudget([], scopeKind, scopeValue, today, idLe) == None
  {
  }

  lemma {:induction false} SpendsAreSafe()
    ensures IsSafeInteger(SpendOfScope(TENANT_SCOPE)) && IsSafeInteger(SpendOfScope(SEARCH_SCOPE))
  {
    assert CREDITED[1..] == [CREDITED[1]] && "search"[0] != "chat"[0];
  }

  lemma {:induction false} SectionIsRead(scope: ForecastScope, sqrt: real -> real, idLe: (string, string) -> bool)
      returns (entry: ScopeSection)
    requires InRange(TODAY) && IsSafeInteger(SpendOfScope(scope))
    ensures entry.scope == scope && ReadFrom(entry, CREDITED, TODAY, [], sqrt, idLe)
  {
    January();
    ReadsAnswer(scope);
    SeriesShape(scope);
    hide SectionOf, SeriesFrom, AnswersCost, AnswersLanding, IsSafeInteger, RowsFor, BoundsAt, CREDITED, LANDING,
         SpendOfScope;
    SectionBuilt(scope, sqrt, idLe);
    entry := ScopeSection(scope, SectionOf(SeriesOf(scope), [], scope, sqrt, idLe).value);
  }

  lemma {:induction false} SearchOverdraws(sections: seq<ScopeSection>, requested: Option<ForecastScope>,
                                           reason: Option<string>, labelLe: (string, string) -> bool,
                                           idLe: (string, string) -> bool)
    requires ScopesOf(sections) == [TENANT_SCOPE, SEARCH_SCOPE] && SettledFromSpans(sections, CREDITED, [0])
    ensures OneEach(sections)
    ensures forall e :: e in sections ==>
      e.section.settledPeriodMicroUsd == if e.scope == SEARCH_SCOPE then 10_000_000 else 2_000_000
    ensures var r := ScopedOf(sections, requested, reason, [], labelLe, idLe);
      r.Ok? && !r.value.reconciliation.spendReconciles
  {
    CreditedSpend();
    hide ScopeSpend, Outside, Residual, ScopedOf, CREDITED;
    var scopes := ScopesOf(sections);
    assert scopes[1] in scopes;
    forall e | e in sections ensures e.scope == TENANT_SCOPE || e.scope == SEARCH_SCOPE {
      var k :| 0 <= k < |sections| && sections[k] == e;
      assert scopes[k] == e.scope;
    }
    ReconcilesExactly(sections, requested, reason, [], labelLe, idLe, CREDITED, [0]);
  }

  /** Sections read from the spans as one snapshot. */
  lemma {:induction false} SectionsOfCredit(sqrt: real -> real, idLe: (string, string) -> bool)
      returns (sections: seq<ScopeSection>)
    requires InRange(TODAY)
    ensures OneSnapshot(sections, CREDITED, TODAY, [], sqrt, idLe)
    ensures ScopesOf(sections) == [TENANT_SCOPE, SEARCH_SCOPE]
  {
    SpendsAreSafe();
    hide CREDITED, ReadFrom, IsSafeInteger, SpendOfScope, InRange;
    var tenant := SectionIsRead(TENANT_SCOPE, sqrt, idLe);
    var search := SectionIsRead(SEARCH_SCOPE, sqrt, idLe);
    sections := [tenant, search];
  }

  /** With credits a slice can exceed the whole. The sections are read from the spans as one snapshot,
      the one settled day is the first of January, and the flag is false. */
  lemma {:induction false} CreditsCanBreakIt(requested: Option<ForecastScope>, reason: Option<string>,
                                             labelLe: (string, string) -> bool, sqrt: real -> real,
                                             idLe: (string, string) -> bool)
      returns (sections: seq<ScopeSection>)
    ensures InRange(TODAY) && OneEach(sections) && OneSnapshot(sections, CREDITED, TODAY, [], sqrt, idLe)
    ensures SettledDaysOf(CREDITED, BoundsAt(TODAY)) == [0]
    ensures forall e :: e in sections ==>
      e.section.settledPeriodMicroUsd == if e.scope == SEARCH_SCOPE then 10_000_000 else 2_000_000
    ensures var r := ScopedOf(sections, requested, reason, [], labelLe, idLe);
      ScopesOf(sections) == [TENANT_SCOPE, SEARCH_SCOPE] && r.Ok? && !r.value.reconciliation.spendReconciles
  {
    January();
    OneSettledDay();
    hide CREDITED, BoundsAt, SettledDaysOf, InRange, OneSnapshot, SettledFromSpans, OneEach, ScopedOf, ScopesOf;
    sections := SectionsOfCredit(sqrt, idLe);
    SnapshotSettles(sections, CREDITED, TODAY, [], sqrt, idLe);
    SearchOverdraws(sections, requested, reason, labelLe, idLe);
  }
}
