/** One bill, sliced. What the roster lists, why the slices of one kind add up to at most the bill,
    what the residual row is, and how a standing relates to the breach date. */
module ScopedTheorems {
  import opened Money
  import opened Results
  import opened Sums
  import opened Sorting
  import opened Layers
  import opened Calendar
  import opened SpendScopes
  import opened SettledSeries
  import opened SeriesTheorems
  import opened Forecast
  import opened ForecastTheorems
  import opened Budgets
  import opened Burndown
  import opened BurndownTheorems
  import opened ScopedForecast

  // ---- The roster ----

  ghost predicate OffersScope(budgets: seq<TenantBudget>, today: int, scope: ForecastScope) {
    exists b :: b in budgets && Offered(b, today) == Some(scope)
  }

  lemma {:induction false} CollectedIs(budgets: seq<TenantBudget>, today: int)
    ensures forall s :: s in Collected(budgets, today) <==> s == TENANT_SCOPE || OffersScope(budgets, today, s)
    ensures Distinct(Collected(budgets, today))
  {
    if budgets != [] {
      var n := |budgets| - 1;
      CollectedIs(budgets[..n], today);
      assert budgets == budgets[..n] + [budgets[n]];
    }
  }

  lemma {:induction false} RosterOrderIsTotal(labelLe: (string, string) -> bool)
    requires TotalPreorder(labelLe)
    ensures TotalPreorder(RosterOrder(labelLe))
  {
    var le := RosterOrder(labelLe);
    forall a, b ensures le(a, b) || le(b, a) {
      assert labelLe(a.value, b.value) || labelLe(b.value, a.value);
    }
    forall a, b, c | le(a, b) && le(b, c) ensures le(a, c) {
      assert labelLe(a.value, b.value) && labelLe(b.value, c.value) ==> labelLe(a.value, c.value);
    }
  }

  /** Features come before models and models before layers, after the tenant. */
  predicate KindPrecedes(a: ScopeKind, b: ScopeKind) {
    || (a == TenantKind && b != TenantKind)
    || (a == FeatureKind && (b == ModelKind || b == LayerKind))
    || (a == ModelKind && b == LayerKind)
  }

  /** The roster is the tenant, first, and every scope that carries a monthly budget in force today,
      each once, kind by kind and by value within a kind. */
  lemma {:induction false} RosterIs(budgets: seq<TenantBudget>, today: int, labelLe: (string, string) -> bool)
    requires TotalPreorder(labelLe)
    ensures var roster := Roster(budgets, today, labelLe);
      && (forall s :: s in roster <==> s == TENANT_SCOPE || OffersScope(budgets, today, s))
      && Distinct(roster) && (forall s :: s in roster ==> IsScope(s))
      && (forall i, j :: 0 <= i < j < |roster| ==>
           || KindPrecedes(roster[i].kind, roster[j].kind)
           || (roster[i].kind == roster[j].kind && labelLe(roster[i].value, roster[j].value)))
      && roster != [] && roster[0] == TENANT_SCOPE
  {
    var collected, le := Collected(budgets, today), RosterOrder(labelLe);
    var roster := Roster(budgets, today, labelLe);
    RosterOrderIsTotal(labelLe);
    CollectedIs(budgets, today);
    CollectedAreScopes(budgets, today);
    SortMembers(collected, le);
    SortPermutes(collected, le);
    SortSorts(collected, le);
    DistinctPermutation(collected, roster);
    RosterInOrder(roster, labelLe);
    hide Sort, Collected, OffersScope;
    assert TENANT_SCOPE in roster && roster[0] in roster;
    var k :| 0 <= k < |roster| && roster[k] == TENANT_SCOPE;
    assert k > 0 ==> le(roster[0], roster[k]);
  }

  lemma {:induction false} RosterInOrder(roster: seq<ForecastScope>, labelLe: (string, string) -> bool)
    requires SortedBy(roster, RosterOrder(labelLe))
    ensures forall i, j :: 0 <= i < j < |roster| ==>
      || KindPrecedes(roster[i].kind, roster[j].kind)
      || (roster[i].kind == roster[j].kind && labelLe(roster[i].value, roster[j].value))
  {
    forall i, j | 0 <= i < j < |roster|
      ensures KindPrecedes(roster[i].kind, roster[j].kind)
              || (roster[i].kind == roster[j].kind && labelLe(roster[i].value, roster[j].value))
    {
      RosterOrderIs(roster[i], roster[j], labelLe);
    }
  }

  lemma {:induction false} RosterOrderIs(a: ForecastScope, b: ForecastScope, labelLe: (string, string) -> bool)
    ensures RosterOrder(labelLe)(a, b) <==>
      KindPrecedes(a.kind, b.kind) || (a.kind == b.kind && labelLe(a.value, b.value))
  {
    assert KindIndex(a.kind) < KindIndex(b.kind) <==> KindPrecedes(a.kind, b.kind) by {
      match a.kind { case TenantKind => case FeatureKind => case ModelKind => case LayerKind => }
    }
  }

  /** Every scope offered beyond the tenant has a budget of its own for its section to compare with. */
  lemma {:induction false} OfferedScopesHaveBudgets(budgets: seq<TenantBudget>, today: int,
                                                    labelLe: (string, string) -> bool, idLe: (string, string) -> bool,
                                                    scope: ForecastScope)
    requires TotalPreorder(labelLe) && TotalPreorder(idLe)
    requires scope in Roster(budgets, today, labelLe) && scope.kind != TenantKind
    ensures SelectBudget(budgets, KindName(scope.kind), scope.value, today, idLe).Some?
  {
    hide SelectBudget, Roster, ScopeOfBudget, Distinct;
    RosterIs(budgets, today, labelLe);
    SelectBudgetIs(budgets, KindName(scope.kind), scope.value, today, idLe);
    var b :| b in budgets && Offered(b, today) == Some(scope);
    OfferedCovers(b, today, scope);
  }

  lemma {:induction false} OfferedCovers(b: TenantBudget, today: int, scope: ForecastScope)
    requires Offered(b, today) == Some(scope) && scope.kind != TenantKind
    ensures AppliesOn(b, KindName(scope.kind), scope.value, today)
  {
  }

  // ---- One snapshot ----

  /** The section was built from this scope's own reads of the spans. */
  ghost predicate ReadFrom(entry: ScopeSection, spans: seq<Span>, today: int, budgets: seq<TenantBudget>,
                           sqrt: real -> real, idLe: (string, string) -> bool)
    requires InRange(today)
  {
    exists rows, landing ::
      && AnswersCost(spans, entry.scope, BoundsAt(today), rows) && AnswersLanding(spans, BoundsAt(today), landing)
      && SectionOf(SeriesFrom(entry.scope, BoundsAt(today), rows, landing), budgets, entry.scope, sqrt, idLe)
           == Ok(entry.section)
  }

  ghost predicate OneSnapshot(sections: seq<ScopeSection>, spans: seq<Span>, today: int, budgets: seq<TenantBudget>,
                              sqrt: real -> real, idLe: (string, string) -> bool)
    requires InRange(today)
  {
    forall e :: e in sections ==> ReadFrom(e, spans, today, budgets, sqrt, idLe)
  }

  /** Whatever scope asked, and however its read came back, the settled days are the same. */
  lemma {:induction false} SettledDaysShared(spans: seq<Span>, b: Bounds, landing: seq<LandingRow>)
    requires AnswersLanding(spans, b, landing)
    ensures SettledPeriodDays(b, landing) == SettledDaysOf(spans, b)
  {
    hide AnswersLanding, EmptyPoint, DayIsSettled;
    forall day | day in WindowDayList(b) ensures IsSettledPeriodDay(b, landing)(day) == CountsDay(spans, b)(day) {
      SettledFlagIs(spans, b, landing, day);
    }
    FilterCongruent(WindowDayList(b), IsSettledPeriodDay(b, landing), CountsDay(spans, b));
  }

  function OnDays(days: seq<int>): Span -> bool {
    (s: Span) => s.day in days
  }

  /** What a scope spent on the given days. */
  function ScopeSpend(spans: seq<Span>, scope: ForecastScope, days: seq<int>): int {
    SumWhere(spans, InGroups(Matches(scope), SpanDay, days), SpanCost)
  }

  ghost predicate SettledFromSpans(sections: seq<ScopeSection>, spans: seq<Span>, days: seq<int>) {
    forall e :: e in sections ==> e.section.settledPeriodMicroUsd == ScopeSpend(spans, e.scope, days)
  }

  lemma {:induction false} SectionSettledIs(series: SettledSpendSeries, budgets: seq<TenantBudget>,
                                            scope: ForecastScope, sqrt: real -> real, idLe: (string, string) -> bool)
    requires InRange(series.periodStart)
    ensures var section := SectionOf(series, budgets, scope, sqrt, idLe);
      section.Ok? ==>
        && section.value.settledPeriodMicroUsd == series.periodSettled.totalMicroUsd
        && section.value.today == series.windowEnd && section.value.scope == scope
  {
    hide ForecastOf, EngineInput, LayerLines, Sort, Filter, WindowOf, ChartActual, ChartReconciles, SelectBudget;
    hide FirstProjected, LayerSum, Ratio, MonthEnd, InRange, Applied;
  }

  lemma {:induction false} SnapshotSettles(sections: seq<ScopeSection>, spans: seq<Span>, today: int,
                                           budgets: seq<TenantBudget>, sqrt: real -> real,
                                           idLe: (string, string) -> bool)
    requires InRange(today) && OneSnapshot(sections, spans, today, budgets, sqrt, idLe)
    ensures SettledFromSpans(sections, spans, SettledDaysOf(spans, BoundsAt(today)))
  {
    var b := BoundsAt(today);
    hide BoundsAt, SectionOf, SeriesFrom, AnswersCost, AnswersLanding, SettledDaysOf, ScopeSpend, InRange, MonthEnd;
    forall e | e in sections
      ensures e.section.settledPeriodMicroUsd == ScopeSpend(spans, e.scope, SettledDaysOf(spans, b))
    {
      var rows, landing :| AnswersCost(spans, e.scope, b, rows) && AnswersLanding(spans, b, landing)
        && SectionOf(SeriesFrom(e.scope, b, rows, landing), budgets, e.scope, sqrt, idLe) == Ok(e.section);
      SeriesPeriod(e.scope, b, rows, landing);
      SectionSettledIs(SeriesFrom(e.scope, b, rows, landing), budgets, e.scope, sqrt, idLe);
      PeriodSettledIsSpend(spans, e.scope, b, rows, landing);
      SettledDaysShared(spans, b, landing);
      SpendOnDays(spans, e.scope, SettledDaysOf(spans, b));
    }
  }

  lemma {:induction false} SpendOnDays(spans: seq<Span>, scope: ForecastScope, days: seq<int>)
    ensures ScopeSpend(spans, scope, days) == SumWhere(spans, InGroups(Matches(scope), SpanDay, days), SpanCost)
  {
  }

  // ---- Slices of one kind ----

  /** The one label a span carries for each kind of scope. */
  function DimensionOf(kind: ScopeKind): Span -> string {
    (s: Span) =>
      match kind
      case TenantKind => ""
      case FeatureKind => s.feature
      case ModelKind => if s.responseModel != "" then s.responseModel else s.requestModel
      case LayerKind => LayerName(LayerOf(s.operation))
  }

  /** On these days, and claimed by a listed scope of this kind. */
  ghost function ClaimedBy(scopes: seq<ForecastScope>, kind: ScopeKind, days: seq<int>): Span -> bool {
    (s: Span) => s.day in days && exists sc :: sc in scopes && sc.kind == kind && Matches(sc)(s)
  }

  ghost function UnclaimedBy(scopes: seq<ForecastScope>, kind: ScopeKind, days: seq<int>): Span -> bool {
    (s: Span) => s.day in days && forall sc :: sc in scopes && sc.kind == kind ==> !Matches(sc)(s)
  }

  function OutsideScope(scope: ForecastScope, days: seq<int>): Span -> bool {
    (s: Span) => s.day in days && !Matches(scope)(s)
  }

  /** Spend of the settled days that some, or no, listed scope of this kind claims. */
  ghost function Claimed(scopes: seq<ForecastScope>, kind: ScopeKind, spans: seq<Span>, days: seq<int>): int {
    SumWhere(spans, ClaimedBy(scopes, kind, days), SpanCost)
  }

  ghost function Residual(scopes: seq<ForecastScope>, kind: ScopeKind, spans: seq<Span>, days: seq<int>): int {
    SumWhere(spans, UnclaimedBy(scopes, kind, days), SpanCost)
  }

  ghost function Outside(scope: ForecastScope, spans: seq<Span>, days: seq<int>): int {
    SumWhere(spans, OutsideScope(scope, days), SpanCost)
  }

  function ScopesOf(sections: seq<ScopeSection>): seq<ForecastScope> {
    Map(sections, SectionScope)
  }

  /** Sections as the page hands them over: the tenant's and any others, no scope twice. */
  ghost predicate OneEach(sections: seq<ScopeSection>) {
    && Distinct(ScopesOf(sections))
    && (forall sc :: sc in ScopesOf(sections) ==> IsScope(sc))
    && TENANT_SCOPE in ScopesOf(sections)
  }

  ghost predicate Listed(scopes: seq<ForecastScope>, kind: ScopeKind) {
    kind != TenantKind && exists sc :: sc in scopes && sc.kind == kind
  }

  // ---- From lines to scopes ----

  const LineScope: ScopeLine -> ForecastScope := (l: ScopeLine) => l.scope
  const LineValue: ScopeLine -> string := (l: ScopeLine) => l.scope.value

  lemma {:induction false} FilterKeepsKeysDistinct<T(!new), K>(s: seq<T>, p: T -> bool, key: T -> K)
    requires Distinct(Map(s, key))
    ensures Distinct(Map(Filter(s, p), key))
  {
    if s != [] {
      assert Map(s, key)[1..] == Map(s[1..], key);
      FilterKeepsKeysDistinct(s[1..], p, key);
      forall x | x in Filter(s[1..], p) ensures key(x) != key(s[0]) {
        var j :| 0 <= j < |s[1..]| && s[1..][j] == x;
        assert Map(s, key)[j + 1] == key(x) && Map(s, key)[0] == key(s[0]);
      }
    }
  }

  lemma {:induction false} KeysOfFilter<T(!new), K(!new)>(s: seq<T>, p: T -> bool, key: T -> K, q: K -> bool)
    requires forall x :: x in s ==> p(x) == q(key(x))
    ensures forall k :: k in Map(Filter(s, p), key) <==> k in Map(s, key) && q(k)
  {
    var kept := Filter(s, p);
    forall k | k in Map(kept, key) ensures k in Map(s, key) && q(k) {
      var i :| 0 <= i < |kept| && Map(kept, key)[i] == k;
      assert kept[i] in kept;
      var j :| 0 <= j < |s| && s[j] == kept[i];
      assert Map(s, key)[j] == k;
    }
    forall k | k in Map(s, key) && q(k) ensures k in Map(kept, key) {
      var j :| 0 <= j < |s| && Map(s, key)[j] == k;
      assert s[j] in s && s[j] in kept;
      var i :| 0 <= i < |kept| && kept[i] == s[j];
      assert Map(kept, key)[i] == k;
    }
  }

  /** The lines are the sections' lines, in another order. */
  lemma {:induction false} LineOfSection(sections: seq<ScopeSection>, selected: ForecastScope, tenantSettled: int,
                                         labelLe: (string, string) -> bool)
    ensures var lines, from := Lines(sections, selected, tenantSettled, labelLe), LineFrom(selected, tenantSettled);
      && multiset(lines) == multiset(Map(sections, from))
      && (forall l :: l in lines ==> exists e :: e in sections && l == from(e))
      && (forall e :: e in sections ==> from(e) in lines)
  {
    var from, le := LineFrom(selected, tenantSettled), LineOrder(labelLe);
    var unsorted, lines := Map(sections, from), Lines(sections, selected, tenantSettled, labelLe);
    SortMembers(unsorted, le);
    SortPermutes(unsorted, le);
    hide Sort, LineFrom;
    forall l | l in lines ensures exists e :: e in sections && l == from(e) {
      var i :| 0 <= i < |unsorted| && unsorted[i] == l;
      assert sections[i] in sections;
    }
    forall e | e in sections ensures from(e) in lines {
      var i :| 0 <= i < |sections| && sections[i] == e;
      assert unsorted[i] in unsorted;
    }
  }

  lemma {:induction false} LineShape(selected: ForecastScope, tenantSettled: int, e: ScopeSection)
    ensures var l := LineFrom(selected, tenantSettled)(e);
      && l.scope == e.scope && l.settledMicroUsd == e.section.settledPeriodMicroUsd
           && l.budgetMicroUsd == BudgetOf(e.section)
      && (l.exceedsTenantSettled <==> e.scope.kind != TenantKind && e.section.settledPeriodMicroUsd > tenantSettled)
  {
  }

  lemma {:induction false} LinesKeepScopes(sections: seq<ScopeSection>, selected: ForecastScope, tenantSettled: int,
                                           labelLe: (string, string) -> bool)
    ensures var lines := Lines(sections, selected, tenantSettled, labelLe);
      multiset(Map(lines, LineScope)) == multiset(ScopesOf(sections))
  {
    var unsorted := Map(sections, LineFrom(selected, tenantSettled));
    LineOfSection(sections, selected, tenantSettled, labelLe);
    hide Lines, LineFrom;
    MapPermutes(Lines(sections, selected, tenantSettled, labelLe), unsorted, LineScope);
    forall i | 0 <= i < |sections| ensures unsorted[i].scope == sections[i].scope {
      LineShape(selected, tenantSettled, sections[i]);
    }
    assert Map(unsorted, LineScope) == ScopesOf(sections);
  }

  function KindIs(kind: ScopeKind): ForecastScope -> bool {
    (sc: ForecastScope) => sc.kind == kind
  }

  const NotTenant: ForecastScope -> bool := (sc: ForecastScope) => sc.kind != TenantKind

  function Members(lines: seq<ScopeLine>, kind: ScopeKind): seq<ScopeLine> {
    Filter(Filter(lines, IsScoped), OfKind(kind))
  }

  lemma {:induction false} MemberScopes(sections: seq<ScopeSection>, selected: ForecastScope, tenantSettled: int,
                                        kind: ScopeKind, labelLe: (string, string) -> bool)
    requires Distinct(ScopesOf(sections)) && kind != TenantKind
    ensures var members := Map(Members(Lines(sections, selected, tenantSettled, labelLe), kind), LineScope);
      Distinct(members) && forall sc :: sc in members <==> sc in ScopesOf(sections) && sc.kind == kind
  {
    var lines := Lines(sections, selected, tenantSettled, labelLe);
    LinesKeepScopes(sections, selected, tenantSettled, labelLe);
    hide Lines;
    DistinctPermutation(ScopesOf(sections), Map(lines, LineScope));
    FilterKeepsKeysDistinct(lines, IsScoped, LineScope);
    FilterKeepsKeysDistinct(Filter(lines, IsScoped), OfKind(kind), LineScope);
    KeysOfFilter(lines, IsScoped, LineScope, NotTenant);
    KeysOfFilter(Filter(lines, IsScoped), OfKind(kind), LineScope, KindIs(kind));
    SameMembers(Map(lines, LineScope), ScopesOf(sections));
  }

  lemma {:induction false} LinesSettle(sections: seq<ScopeSection>, selected: ForecastScope, tenantSettled: int,
                                       labelLe: (string, string) -> bool, spans: seq<Span>, days: seq<int>)
    requires SettledFromSpans(sections, spans, days)
    ensures forall l :: l in Lines(sections, selected, tenantSettled, labelLe) ==>
      l.settledMicroUsd == ScopeSpend(spans, l.scope, days)
      && (l.exceedsTenantSettled <==> l.scope.kind != TenantKind && l.settledMicroUsd > tenantSettled)
  {
    LineOfSection(sections, selected, tenantSettled, labelLe);
    hide Lines, LineFrom, ScopeSpend;
    forall l | l in Lines(sections, selected, tenantSettled, labelLe)
      ensures l.settledMicroUsd == ScopeSpend(spans, l.scope, days)
      ensures l.exceedsTenantSettled <==> l.scope.kind != TenantKind && l.settledMicroUsd > tenantSettled
    {
      var e :| e in sections && l == LineFrom(selected, tenantSettled)(e);
      LineShape(selected, tenantSettled, e);
    }
  }

  // ---- Disjoint slices ----

  function ValueSpend(spans: seq<Span>, kind: ScopeKind, days: seq<int>): string -> int {
    (v: string) => SumWhere(spans, InGroup(OnDays(days), DimensionOf(kind), v), SpanCost)
  }

  lemma {:induction false} MatchesDimension(scope: ForecastScope, s: Span)
    requires scope.kind != TenantKind
    ensures Matches(scope)(s) <==> DimensionOf(scope.kind)(s) == scope.value
  {
  }

  lemma {:induction false} ScopeSpendIsValueSpend(spans: seq<Span>, scope: ForecastScope, days: seq<int>)
    requires scope.kind != TenantKind
    ensures ScopeSpend(spans, scope, days) == ValueSpend(spans, scope.kind, days)(scope.value)
  {
    WhereCongruent(spans, InGroups(Matches(scope), SpanDay, days),
                   InGroup(OnDays(days), DimensionOf(scope.kind), scope.value), SpanCost, SpanCost);
  }

  lemma {:induction false} ClaimedExactly(members: seq<ScopeLine>, scopes: seq<ForecastScope>, kind: ScopeKind,
                                          days: seq<int>, s: Span)
    requires kind != TenantKind
    requires forall sc :: sc in Map(members, LineScope) <==> sc in scopes && sc.kind == kind
    ensures InGroups(OnDays(days), DimensionOf(kind), Map(members, LineValue))(s) == ClaimedBy(scopes, kind, days)(s)
  {
    forall sc | sc in scopes && sc.kind == kind ensures Matches(sc)(s) <==> DimensionOf(kind)(s) == sc.value {
      MatchesDimension(sc, s);
    }
    hide Matches, DimensionOf;
    var values, v := Map(members, LineValue), DimensionOf(kind)(s);
    if v in values {
      var i :| 0 <= i < |members| && values[i] == v;
      assert Map(members, LineScope)[i] in Map(members, LineScope);
      assert Matches(members[i].scope)(s);
    }
    if exists sc :: sc in scopes && sc.kind == kind && Matches(sc)(s) {
      var sc :| sc in scopes && sc.kind == kind && Matches(sc)(s);
      var i :| 0 <= i < |members| && Map(members, LineScope)[i] == sc;
      assert values[i] == v;
    }
  }

  /** Summing the lines of one kind counts every span they claim, once. */
  lemma {:induction false} MembersSum(members: seq<ScopeLine>, scopes: seq<ForecastScope>, kind: ScopeKind,
                                      spans: seq<Span>, days: seq<int>)
    requires kind != TenantKind && Distinct(Map(members, LineScope))
    requires forall sc :: sc in Map(members, LineScope) <==> sc in scopes && sc.kind == kind
    requires forall l :: l in members ==> l.settledMicroUsd == ScopeSpend(spans, l.scope, days)
    ensures SumBy(members, LineSettled) == Claimed(scopes, kind, spans, days)
  {
    hide ScopeSpend, Matches, DimensionOf;
    var values, group := Map(members, LineValue), ValueSpend(spans, kind, days);
    forall i | 0 <= i < |members| ensures LineSettled(members[i]) == group(values[i]) && members[i].scope.kind == kind {
      assert members[i] in members && Map(members, LineScope)[i] in Map(members, LineScope);
      ScopeSpendIsValueSpend(spans, members[i].scope, days);
    }
    forall i, j | 0 <= i < j < |members| ensures values[i] != values[j] {
      assert Map(members, LineScope)[i] != Map(members, LineScope)[j];
    }
    SumPointwise(members, values, LineSettled, group);
    GroupSum(spans, OnDays(days), values, DimensionOf(kind), SpanCost, group);
    forall s | s in spans
      ensures InGroups(OnDays(days), DimensionOf(kind), values)(s) == ClaimedBy(scopes, kind, days)(s)
    {
      ClaimedExactly(members, scopes, kind, days, s);
    }
    WhereCongruent(spans, InGroups(OnDays(days), DimensionOf(kind), values), ClaimedBy(scopes, kind, days), SpanCost,
                   SpanCost);
  }

  // ---- The bill, split two ways ----

  lemma {:induction false} TenantSpends(spans: seq<Span>, days: seq<int>)
    ensures ScopeSpend(spans, TENANT_SCOPE, days) == SumWhere(spans, OnDays(days), SpanCost)
  {
    WhereCongruent(spans, InGroups(Matches(TENANT_SCOPE), SpanDay, days), OnDays(days), SpanCost, SpanCost);
  }

  lemma {:induction false} ClaimedAndResidual(scopes: seq<ForecastScope>, kind: ScopeKind, spans: seq<Span>,
                                              days: seq<int>)
    ensures ScopeSpend(spans, TENANT_SCOPE, days) == Claimed(scopes, kind, spans, days)
      + Residual(scopes, kind, spans, days)
  {
    hide ScopeSpend, Matches;
    TenantSpends(spans, days);
    WhereSplit(spans, OnDays(days), ClaimedBy(scopes, kind, days), UnclaimedBy(scopes, kind, days), SpanCost);
  }

  lemma {:induction false} InsideAndOutside(scope: ForecastScope, spans: seq<Span>, days: seq<int>)
    ensures ScopeSpend(spans, TENANT_SCOPE, days) == ScopeSpend(spans, scope, days) + Outside(scope, spans, days)
  {
    TenantSpends(spans, days);
    SpendOnDays(spans, scope, days);
    hide ScopeSpend, Matches;
    WhereSplit(spans, OnDays(days), InGroups(Matches(scope), SpanDay, days), OutsideScope(scope, days), SpanCost);
  }

  ghost predicate NoCredits(spans: seq<Span>) {
    forall s :: s in spans ==> s.costMicroUsd >= 0
  }

  lemma {:induction false} NothingNegative(spans: seq<Span>, days: seq<int>)
    requires NoCredits(spans)
    ensures forall scope :: ScopeSpend(spans, scope, days) >= 0 && Outside(scope, spans, days) >= 0
    ensures forall scopes, kind :: Claimed(scopes, kind, spans, days) >= 0 && Residual(scopes, kind, spans, days) >= 0
  {
    hide SumWhere, Matches;
    forall scope ensures ScopeSpend(spans, scope, days) >= 0 && Outside(scope, spans, days) >= 0 {
      NotNegative(spans, InGroups(Matches(scope), SpanDay, days));
      NotNegative(spans, OutsideScope(scope, days));
    }
    forall scopes, kind ensures Claimed(scopes, kind, spans, days) >= 0 && Residual(scopes, kind, spans, days) >= 0 {
      NotNegative(spans, ClaimedBy(scopes, kind, days));
      NotNegative(spans, UnclaimedBy(scopes, kind, days));
    }
  }

  lemma {:induction false} NotNegative(spans: seq<Span>, p: Span -> bool)
    requires NoCredits(spans)
    ensures SumWhere(spans, p, SpanCost) >= 0
  {
    WhereAtMost(spans, p, p, SpanCost);
  }

  // ---- The reconciliation ----

  /** The group reported for one kind. */
  ghost predicate GroupIs(g: ScopeKindGroup, scopes: seq<ForecastScope>, spans: seq<Span>, days: seq<int>) {
    && Listed(scopes, g.kind)
    && g.settledMicroUsd == Claimed(scopes, g.kind, spans, days)
    && g.residualMicroUsd == Residual(scopes, g.kind, spans, days)
  }

  lemma {:induction false} GroupShape(lines: seq<ScopeLine>, tenantSettled: int, kind: ScopeKind)
    ensures var g := GroupOf(Filter(lines, IsScoped), tenantSettled)(kind);
      && g.kind == kind && g.settledMicroUsd == SumBy(Members(lines, kind), LineSettled)
      && g.residualMicroUsd == tenantSettled - g.settledMicroUsd
  {
  }

  lemma {:induction false} GroupIsTrue(sections: seq<ScopeSection>, selected: ForecastScope, tenantSettled: int,
                                       kind: ScopeKind, spans: seq<Span>, days: seq<int>,
                                       labelLe: (string, string) -> bool)
    requires Distinct(ScopesOf(sections)) && Listed(ScopesOf(sections), kind)
    requires SettledFromSpans(sections, spans, days) && tenantSettled == ScopeSpend(spans, TENANT_SCOPE, days)
    ensures GroupIs(GroupOf(Filter(Lines(sections, selected, tenantSettled, labelLe), IsScoped), tenantSettled)(kind),
                    ScopesOf(sections), spans, days)
  {
    hide ScopeSpend, Lines, Claimed, Residual, Distinct, ScopesOf, GroupOf, SettledFromSpans;
    var lines := Lines(sections, selected, tenantSettled, labelLe);
    MemberScopes(sections, selected, tenantSettled, kind, labelLe);
    LinesSettle(sections, selected, tenantSettled, labelLe, spans, days);
    MembersSum(Members(lines, kind), ScopesOf(sections), kind, spans, days);
    ClaimedAndResidual(ScopesOf(sections), kind, spans, days);
    GroupShape(lines, tenantSettled, kind);
  }

  lemma {:induction false} ScopedKeepScopes(sections: seq<ScopeSection>, selected: ForecastScope, tenantSettled: int,
                                            labelLe: (string, string) -> bool)
    ensures var scoped := Map(Filter(Lines(sections, selected, tenantSettled, labelLe), IsScoped), LineScope);
      forall sc :: sc in scoped <==> sc in ScopesOf(sections) && sc.kind != TenantKind
  {
    var lines := Lines(sections, selected, tenantSettled, labelLe);
    LinesKeepScopes(sections, selected, tenantSettled, labelLe);
    SameMembers(Map(lines, LineScope), ScopesOf(sections));
    KeysOfFilter(lines, IsScoped, LineScope, NotTenant);
    hide Lines, Filter, ScopesOf, Map;
  }

  lemma {:induction false} HasLinesExactly(sections: seq<ScopeSection>, selected: ForecastScope, tenantSettled: int,
                                           kind: ScopeKind, labelLe: (string, string) -> bool)
    ensures HasLines(Filter(Lines(sections, selected, tenantSettled, labelLe), IsScoped))(kind)
      <==> Listed(ScopesOf(sections), kind)
  {
    hide Lines, Filter, ScopesOf;
    var scoped := Filter(Lines(sections, selected, tenantSettled, labelLe), IsScoped);
    ScopedKeepScopes(sections, selected, tenantSettled, labelLe);
    if HasLines(scoped)(kind) {
      var i :| 0 <= i < |scoped| && scoped[i].scope.kind == kind;
      assert Map(scoped, LineScope)[i] in Map(scoped, LineScope);
    }
    if Listed(ScopesOf(sections), kind) {
      var sc :| sc in ScopesOf(sections) && sc.kind == kind;
      assert sc in Map(scoped, LineScope);
      var i :| 0 <= i < |scoped| && Map(scoped, LineScope)[i] == sc;
    }
  }

  lemma {:induction false} AllKinds()
    ensures forall k: ScopeKind :: k in SCOPE_KINDS
  {
    assert SCOPE_KINDS[0] == TenantKind && SCOPE_KINDS[1] == FeatureKind && SCOPE_KINDS[2] == ModelKind
      && SCOPE_KINDS[3] == LayerKind;
    forall k: ScopeKind ensures k in SCOPE_KINDS {
      match k
      case TenantKind =>
      case FeatureKind =>
      case ModelKind =>
      case LayerKind =>
    }
  }

  lemma {:induction false} GroupsAreTrue(sections: seq<ScopeSection>, selected: ForecastScope, tenantSettled: int,
                                         spans: seq<Span>, days: seq<int>, labelLe: (string, string) -> bool)
    requires Distinct(ScopesOf(sections))
    requires SettledFromSpans(sections, spans, days) && tenantSettled == ScopeSpend(spans, TENANT_SCOPE, days)
    ensures var groups := Groups(Filter(Lines(sections, selected, tenantSettled, labelLe), IsScoped), tenantSettled);
      forall g :: g in groups ==> GroupIs(g, ScopesOf(sections), spans, days)
  {
    hide ScopeSpend, Lines, GroupIs, Listed, HasLines, SettledFromSpans, GroupOf, Distinct, ScopesOf;
    var scoped := Filter(Lines(sections, selected, tenantSettled, labelLe), IsScoped);
    var kinds, groups := Filter(SCOPE_KINDS, HasLines(scoped)), Groups(scoped, tenantSettled);
    forall g | g in groups ensures GroupIs(g, ScopesOf(sections), spans, days) {
      var i :| 0 <= i < |kinds| && groups[i] == g;
      assert kinds[i] in kinds;
      HasLinesExactly(sections, selected, tenantSettled, kinds[i], labelLe);
      GroupIsTrue(sections, selected, tenantSettled, kinds[i], spans, days, labelLe);
    }
  }

  lemma {:induction false} KindHasGroup(sections: seq<ScopeSection>, selected: ForecastScope, tenantSettled: int,
                                        labelLe: (string, string) -> bool, kind: ScopeKind)
    requires Listed(ScopesOf(sections), kind)
    ensures exists g ::
      g in Groups(Filter(Lines(sections, selected, tenantSettled, labelLe), IsScoped), tenantSettled) && g.kind == kind
  {
    hide Lines, Listed, HasLines, GroupOf, ScopesOf;
    var lines := Lines(sections, selected, tenantSettled, labelLe);
    var scoped := Filter(lines, IsScoped);
    var kinds, groups := Filter(SCOPE_KINDS, HasLines(scoped)), Groups(scoped, tenantSettled);
    HasLinesExactly(sections, selected, tenantSettled, kind, labelLe);
    AllKinds();
    assert kind in kinds;
    var i :| 0 <= i < |kinds| && kinds[i] == kind;
    GroupShape(lines, tenantSettled, kind);
    assert groups[i] in groups;
  }

  lemma {:induction false} TenantFound(sections: seq<ScopeSection>, spans: seq<Span>, days: seq<int>)
    requires OneEach(sections) && SettledFromSpans(sections, spans, days)
    ensures var t := Find(sections, IsTenantSection);
      t.Some? && t.value.section.settledPeriodMicroUsd == ScopeSpend(spans, TENANT_SCOPE, days)
  {
    hide Distinct, ScopeSpend;
    var i :| 0 <= i < |sections| && ScopesOf(sections)[i] == TENANT_SCOPE;
    assert sections[i] in sections && IsTenantSection(sections[i]);
    var t := Find(sections, IsTenantSection).value;
    var k :| 0 <= k < |sections| && sections[k] == t;
    assert ScopesOf(sections)[k] in ScopesOf(sections);
  }

  /** The groups are exactly the listed kinds; each adds up the spans its scopes claim, and its
      residual is the spend no scope of the kind claims. This holds with credits in the bill too. */
  lemma {:induction false} GroupsAre(sections: seq<ScopeSection>, requested: Option<ForecastScope>,
                                     reason: Option<string>, budgets: seq<TenantBudget>,
                                     labelLe: (string, string) -> bool, idLe: (string, string) -> bool,
                                     spans: seq<Span>, days: seq<int>)
    requires OneEach(sections) && SettledFromSpans(sections, spans, days)
    ensures var r := ScopedOf(sections, requested, reason, budgets, labelLe, idLe);
      && r.Ok?
      && r.value.reconciliation.tenantSettledMicroUsd == ScopeSpend(spans, TENANT_SCOPE, days)
      && r.value.lines == Lines(sections, r.value.selected, r.value.reconciliation.tenantSettledMicroUsd, labelLe)
      && (forall g :: g in r.value.reconciliation.groups ==> GroupIs(g, ScopesOf(sections), spans, days))
      && (forall k :: Listed(ScopesOf(sections), k) ==> exists g :: g in r.value.reconciliation.groups && g.kind == k)
  {
    TenantFound(sections, spans, days);
    hide ScopeSpend, Lines, SelectBudget, GroupIs, Listed, Allocation, FallbackOf, SettledFromSpans, Groups, IsScope,
         Find, Warnings;
    var r := ScopedOf(sections, requested, reason, budgets, labelLe, idLe).value;
    var t := r.reconciliation.tenantSettledMicroUsd;
    GroupsAreTrue(sections, r.selected, t, spans, days, labelLe);
    forall k | Listed(ScopesOf(sections), k) ensures exists g :: g in r.reconciliation.groups && g.kind == k {
      KindHasGroup(sections, r.selected, t, labelLe, k);
    }
  }

  lemma {:induction false} NoWarningsExactly(lines: seq<ScopeLine>, groups: seq<ScopeKindGroup>)
    ensures Warnings(Filter(lines, IsScoped), groups) == [] <==>
      && (forall l :: l in lines && l.scope.kind != TenantKind ==> !l.exceedsTenantSettled)
      && (forall g :: g in groups ==> g.residualMicroUsd >= 0)
  {
    var scoped := Filter(lines, IsScoped);
    var above, below := Filter(scoped, Exceeds), Filter(groups, Overdrawn);
    if above != [] {
      assert above[0] in above;
    }
    if below != [] {
      assert below[0] in below;
    }
    assert Warnings(scoped, groups) == [] <==> above == [] && below == [];
  }

  lemma {:induction false} FlagIs(sections: seq<ScopeSection>, requested: Option<ForecastScope>, reason: Option<string>,
                                  budgets: seq<TenantBudget>, labelLe: (string, string) -> bool,
                                  idLe: (string, string) -> bool)
    ensures var r := ScopedOf(sections, requested, reason, budgets, labelLe, idLe);
      r.Ok? ==>
        && (r.value.reconciliation.spendReconciles <==> r.value.reconciliation.spendWarnings == [])
        && r.value.reconciliation.spendWarnings
             == Warnings(Filter(r.value.lines, IsScoped), r.value.reconciliation.groups)
  {
    hide Lines, SelectBudget, Allocation, FallbackOf, Groups, Find, Warnings, Filter;
  }

  lemma {:induction false} NoLineExceedsExactly(sections: seq<ScopeSection>, selected: ForecastScope,
                                                tenantSettled: int, labelLe: (string, string) -> bool, spans: seq<Span>,
                                                days: seq<int>)
    requires SettledFromSpans(sections, spans, days) && tenantSettled == ScopeSpend(spans, TENANT_SCOPE, days)
    ensures (forall l :: l in Lines(sections, selected, tenantSettled, labelLe) && l.scope.kind != TenantKind ==>
      !l.exceedsTenantSettled)
      <==> (forall sc :: sc in ScopesOf(sections) && sc.kind != TenantKind ==> Outside(sc, spans, days) >= 0)
  {
    var lines := Lines(sections, selected, tenantSettled, labelLe);
    LinesSettle(sections, selected, tenantSettled, labelLe, spans, days);
    LinesKeepScopes(sections, selected, tenantSettled, labelLe);
    SameMembers(Map(lines, LineScope), ScopesOf(sections));
    hide ScopeSpend, Lines, Outside, ScopesOf, SettledFromSpans;
    forall sc ensures Outside(sc, spans, days) == tenantSettled - ScopeSpend(spans, sc, days) {
      InsideAndOutside(sc, spans, days);
    }
    forall l | l in lines ensures l.scope in ScopesOf(sections) {
      var i :| 0 <= i < |lines| && lines[i] == l;
      assert Map(lines, LineScope)[i] in Map(lines, LineScope);
    }
    forall sc | sc in ScopesOf(sections) ensures exists l :: l in lines && l.scope == sc {
      assert sc in Map(lines, LineScope);
      var i :| 0 <= i < |lines| && Map(lines, LineScope)[i] == sc;
      assert lines[i] in lines;
    }
  }

  /** When the page reports that the spend reconciles, exactly: for no listed scope, and for no listed
      kind, does the rest of the bill come out negative. Only credits can make it. */
  lemma {:induction false} ReconcilesExactly(sections: seq<ScopeSection>, requested: Option<ForecastScope>,
                                             reason: Option<string>, budgets: seq<TenantBudget>,
                                             labelLe: (string, string) -> bool, idLe: (string, string) -> bool,
                                             spans: seq<Span>, days: seq<int>)
    requires OneEach(sections) && SettledFromSpans(sections, spans, days)
    ensures var r, scopes := ScopedOf(sections, requested, reason, budgets, labelLe, idLe), ScopesOf(sections);
      r.Ok? && (r.value.reconciliation.spendReconciles <==>
        && (forall sc :: sc in scopes && sc.kind != TenantKind ==> Outside(sc, spans, days) >= 0)
        && (forall k :: Listed(scopes, k) ==> Residual(scopes, k, spans, days) >= 0))
  {
    hide ScopedOf, Lines, Residual, Listed, Outside, Warnings, OneEach, SettledFromSpans, ScopeSpend, Claimed, ScopesOf,
         Filter;
    GroupsAre(sections, requested, reason, budgets, labelLe, idLe, spans, days);
    FlagIs(sections, requested, reason, budgets, labelLe, idLe);
    var r := ScopedOf(sections, requested, reason, budgets, labelLe, idLe).value;
    NoLineExceedsExactly(sections, r.selected, r.reconciliation.tenantSettledMicroUsd, labelLe, spans, days);
    NoWarningsExactly(r.lines, r.reconciliation.groups);
  }

  /** The bill reconciles. For every list of spans without credits, read as one snapshot, and any part
      of the roster that includes the tenant: there are no warnings, every slice and every kind is at
      most the tenant's figure, and the residual row is the spend nobody claims. */
  lemma {:induction false} SpendAlwaysReconciles(sections: seq<ScopeSection>, requested: Option<ForecastScope>,
                                                 reason: Option<string>, budgets: seq<TenantBudget>,
                                                 labelLe: (string, string) -> bool, sqrt: real -> real,
                                                 idLe: (string, string) -> bool, spans: seq<Span>, today: int)
    requires InRange(today) && OneEach(sections) && OneSnapshot(sections, spans, today, budgets, sqrt, idLe)
    requires NoCredits(spans)
    ensures var r, days := ScopedOf(sections, requested, reason, budgets, labelLe, idLe),
      SettledDaysOf(spans, BoundsAt(today));
      && r.Ok? && r.value.reconciliation.spendReconciles && r.value.reconciliation.spendWarnings == []
      && (forall e :: e in sections ==>
           0 <= e.section.settledPeriodMicroUsd <= r.value.reconciliation.tenantSettledMicroUsd)
      && (forall g :: g in r.value.reconciliation.groups ==>
           && GroupIs(g, ScopesOf(sections), spans, days)
           && 0 <= g.settledMicroUsd <= r.value.reconciliation.tenantSettledMicroUsd
           && g.settledMicroUsd + g.residualMicroUsd == r.value.reconciliation.tenantSettledMicroUsd)
  {
    hide ScopedOf, OneEach, Residual, Claimed, Outside, ScopeSpend, SettledDaysOf, Listed, ScopesOf, BoundsAt,
         NoCredits, InRange, OneSnapshot;
    var days := SettledDaysOf(spans, BoundsAt(today));
    SnapshotSettles(sections, spans, today, budgets, sqrt, idLe);
    GroupsAre(sections, requested, reason, budgets, labelLe, idLe, spans, days);
    ReconcilesExactly(sections, requested, reason, budgets, labelLe, idLe, spans, days);
    FlagIs(sections, requested, reason, budgets, labelLe, idLe);
    NothingNegative(spans, days);
    forall e | e in sections ensures 0 <= e.section.settledPeriodMicroUsd <= ScopeSpend(spans, TENANT_SCOPE, days) {
      InsideAndOutside(e.scope, spans, days);
    }
    forall k ensures Claimed(ScopesOf(sections), k, spans, days) + Residual(ScopesOf(sections), k, spans, days)
      == ScopeSpend(spans, TENANT_SCOPE, days) {
      ClaimedAndResidual(ScopesOf(sections), k, spans, days);
    }
  }

  /** The page's own list qualifies, however many of its reads failed, as long as the tenant's did
      not. */
  lemma {:induction false} RosterSectionsQualify(sections: seq<ScopeSection>, read: ForecastScope -> bool,
                                                 budgets: seq<TenantBudget>, today: int,
                                                 labelLe: (string, string) -> bool)
    requires TotalPreorder(labelLe) && read(TENANT_SCOPE)
    requires ScopesOf(sections) == Filter(Roster(budgets, today, labelLe), read)
    ensures OneEach(sections)
  {
    RosterIs(budgets, today, labelLe);
    hide Roster, ScopesOf;
    FilterKeepsDistinct(Roster(budgets, today, labelLe), read);
  }

  // ---- What the table shows ----

  lemma {:induction false} LineOrderIsTotal(labelLe: (string, string) -> bool)
    requires TotalPreorder(labelLe)
    ensures TotalPreorder(LineOrder(labelLe))
  {
    var le := LineOrder(labelLe);
    forall a, b ensures le(a, b) || le(b, a) {
      assert labelLe(a.title, b.title) || labelLe(b.title, a.title);
    }
    forall a, b, c | le(a, b) && le(b, c) ensures le(a, c) {
      assert labelLe(a.title, b.title) && labelLe(b.title, c.title) ==> labelLe(a.title, c.title);
    }
  }

  lemma {:induction false} TenantFirst(lines: seq<ScopeLine>, labelLe: (string, string) -> bool, k: nat)
    requires SortedBy(lines, LineOrder(labelLe)) && Distinct(Map(lines, LineScope))
    requires forall i :: 0 <= i < |lines| ==> IsScope(lines[i].scope)
    requires k < |lines| && lines[k].scope == TENANT_SCOPE
    ensures k == 0
  {
    assert forall i :: 0 < i < |lines| ==>
      LineOrder(labelLe)(lines[0], lines[i]) && Map(lines, LineScope)[0] != Map(lines, LineScope)[i];
  }

  /** One line per section, the tenant's first, then the largest spenders, labels in order between
      equals. */
  lemma {:induction false} LinesInOrder(sections: seq<ScopeSection>, selected: ForecastScope, tenantSettled: int,
                                        labelLe: (string, string) -> bool)
    requires OneEach(sections) && TotalPreorder(labelLe)
    ensures var lines := Lines(sections, selected, tenantSettled, labelLe);
      && multiset(Map(lines, LineScope)) == multiset(ScopesOf(sections))
      && lines != [] && lines[0].scope == TENANT_SCOPE
      && (forall i, j :: 0 < i < j < |lines| ==>
           lines[i].settledMicroUsd > lines[j].settledMicroUsd
           || (lines[i].settledMicroUsd == lines[j].settledMicroUsd && labelLe(lines[i].title, lines[j].title)))
  {
    var lines := Lines(sections, selected, tenantSettled, labelLe);
    LineOrderIsTotal(labelLe);
    SortSorts(Map(sections, LineFrom(selected, tenantSettled)), LineOrder(labelLe));
    LinesKeepScopes(sections, selected, tenantSettled, labelLe);
    DistinctPermutation(ScopesOf(sections), Map(lines, LineScope));
    SameMembers(Map(lines, LineScope), ScopesOf(sections));
    hide Lines, ScopesOf, Sort;
    forall i | 0 <= i < |lines| ensures IsScope(lines[i].scope) {
      assert Map(lines, LineScope)[i] in Map(lines, LineScope);
    }
    assert TENANT_SCOPE in Map(lines, LineScope);
    var k :| 0 <= k < |lines| && Map(lines, LineScope)[k] == TENANT_SCOPE;
    TenantFirst(lines, labelLe, k);
    forall i | 0 < i < |lines| ensures lines[i].scope.kind != TenantKind {
      assert Map(lines, LineScope)[0] != Map(lines, LineScope)[i];
    }
    forall i, j | 0 < i < j < |lines| ensures LineOrder(labelLe)(lines[i], lines[j]) {
    }
  }

  /** The page shows the scope that was asked for exactly when it is on the roster, and otherwise the
      tenant's; it says so exactly when something was asked for and could not be shown, and what it was. */
  lemma {:induction false} SelectionIs(sections: seq<ScopeSection>, requested: Option<ForecastScope>,
                                       reason: Option<string>, budgets: seq<TenantBudget>,
                                       labelLe: (string, string) -> bool, idLe: (string, string) -> bool)
    requires OneEach(sections)
    ensures var r := ScopedOf(sections, requested, reason, budgets, labelLe, idLe);
      var shown := requested.Some? && requested.value in ScopesOf(sections);
      && r.Ok?
      && r.value.selected == (if shown then requested.value else TENANT_SCOPE)
      && ScopeSection(r.value.selected, r.value.section) in sections
      && (r.value.fallback.Some? <==> !shown && (requested.Some? || (reason.Some? && reason.value != "")))
      && (r.value.fallback.Some? ==>
           if requested.Some? then r.value.fallback.value == NotOnRoster(requested.value)
           else r.value.fallback.value == Unreadable(reason.value))
  {
    hide Lines, SelectBudget, Reconciliation, Distinct;
    FoundExactly(sections, TENANT_SCOPE);
    var tenant := Find(sections, IsTenantSection);
    var i :| 0 <= i < |sections| && ScopesOf(sections)[i] == TENANT_SCOPE;
    assert IsTenantSection(sections[i]) && sections[i] in sections;
    var k :| 0 <= k < |sections| && sections[k] == tenant.value;
    assert ScopesOf(sections)[k] in ScopesOf(sections);
    if requested.Some? {
      FoundExactly(sections, requested.value);
    }
  }

  lemma {:induction false} FoundExactly(sections: seq<ScopeSection>, scope: ForecastScope)
    ensures Find(sections, ForScope(scope)).Some? <==> scope in ScopesOf(sections)
  {
    var found := Find(sections, ForScope(scope));
    if found.Some? {
      var k :| 0 <= k < |sections| && sections[k] == found.value;
      assert ScopesOf(sections)[k] == scope;
    }
    if scope in ScopesOf(sections) {
      var k :| 0 <= k < |sections| && ScopesOf(sections)[k] == scope;
      assert sections[k] in sections && ForScope(scope)(sections[k]);
    }
  }
}
