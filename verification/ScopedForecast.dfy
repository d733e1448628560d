/** Scoped budgets (web/lib/scopedForecast.ts): which scopes the page offers, where each one stands,
    and the check that slices of one bill add up. `labelLe` is the order `localeCompare` gives. */
module ScopedForecast {
  import opened Results
  import opened Sums
  import opened Sorting
  import opened SpendScopes
  import opened Forecast
  import opened Budgets
  import opened Burndown

  // ---- The roster ----

  function KindIndex(kind: ScopeKind): nat {
    match kind
    case TenantKind => 0
    case FeatureKind => 1
    case ModelKind => 2
    case LayerKind => 3
  }

  function RosterOrder(labelLe: (string, string) -> bool): (ForecastScope, ForecastScope) -> bool {
    (a: ForecastScope, b: ForecastScope) =>
      if a.kind != b.kind then KindIndex(a.kind) < KindIndex(b.kind) else labelLe(a.value, b.value)
  }

  /** The scope a budget puts on the roster today. */
  function Offered(b: TenantBudget, today: int): Option<ForecastScope> {
    if InForce(b, today) then ScopeOfBudget(b.scopeKind, b.scopeValue) else None
  }

  /** The tenant, then each offered scope where it is first offered. */
  function Collected(budgets: seq<TenantBudget>, today: int): seq<ForecastScope> {
    if budgets == [] then [TENANT_SCOPE]
    else
      var before, scope := Collected(budgets[..|budgets| - 1], today), Offered(budgets[|budgets| - 1], today);
      if scope.None? || scope.value in before then before else before + [scope.value]
  }

  function Roster(budgets: seq<TenantBudget>, today: int, labelLe: (string, string) -> bool): seq<ForecastScope> {
    Sort(Collected(budgets, today), RosterOrder(labelLe))
  }

  lemma {:induction false} CollectedAreScopes(budgets: seq<TenantBudget>, today: int)
    ensures forall s :: s in Collected(budgets, today) ==> IsScope(s)
  {
    if budgets != [] {
      CollectedAreScopes(budgets[..|budgets| - 1], today);
    }
  }

  /** The source's map is keyed by string, and remembers the order its keys were first set in. */
  method RosterScopes(budgets: seq<TenantBudget>, today: int, labelLe: (string, string) -> bool)
      returns (roster: seq<ForecastScope>)
    ensures roster == Roster(budgets, today, labelLe)
  {
    hide ScopeKey, ScopeOfBudget, IsScope;
    var byKey := map[ScopeKey(TENANT_SCOPE) := TENANT_SCOPE];
    var keys := [ScopeKey(TENANT_SCOPE)];
    for i := 0 to |budgets|
      invariant forall k :: k in byKey <==> k in keys
      invariant |keys| == |Collected(budgets[..i], today)|
      invariant forall j :: 0 <= j < |keys| ==>
        keys[j] in byKey && byKey[keys[j]] == Collected(budgets[..i], today)[j] && keys[j] == ScopeKey(byKey[keys[j]])
    {
      var b := budgets[i];
      assert budgets[..i + 1][..i] == budgets[..i];
      if b.period != COMPARED_PERIOD || b.startsOn > today || (b.endsOn.Some? && b.endsOn.value < today) {
        continue;
      }
      var scope := ScopeOfBudget(b.scopeKind, b.scopeValue);
      if scope.None? {
        continue;
      }
      var key := ScopeKey(scope.value);
      KeyKnownExactly(Collected(budgets[..i], today), keys, scope.value, budgets[..i], today);
      if key !in byKey {
        keys := keys + [key];
      }
      byKey := byKey[key := scope.value];
    }
    assert budgets[..|budgets|] == budgets;
    var all := seq(|keys|, j requires 0 <= j < |keys| && keys[j] in byKey => byKey[keys[j]]);
    assert all == Collected(budgets, today);
    var ranked := ArrayOf(all);
    SortInPlace(ranked, RosterOrder(labelLe));
    roster := ranked[..];
  }

  /** Keys stand for scopes: the key is known exactly when the scope is. */
  lemma {:induction false} KeyKnownExactly(scopes: seq<ForecastScope>, keys: seq<string>, scope: ForecastScope,
                                           budgets: seq<TenantBudget>, today: int)
    requires |keys| == |scopes| && IsScope(scope) && scopes == Collected(budgets, today)
    requires forall j :: 0 <= j < |keys| ==> keys[j] == ScopeKey(scopes[j])
    ensures ScopeKey(scope) in keys <==> scope in scopes
    ensures forall j :: 0 <= j < |keys| && keys[j] == ScopeKey(scope) ==> scopes[j] == scope
  {
    CollectedAreScopes(budgets, today);
    forall j | 0 <= j < |keys| && keys[j] == ScopeKey(scope) ensures scopes[j] == scope {
      assert scopes[j] in scopes;
      ScopeKeyInjective(scopes[j], scope);
    }
  }

  // ---- Lines ----

  datatype ScopeStanding = OnTrack | ProjectedBreach | AlreadyOver | NoBudgetSet | Unknown

  datatype ScopeSection = ScopeSection(scope: ForecastScope, section: BurndownSection)

  datatype ScopeLine = ScopeLine(
    scope: ForecastScope, key: string, title: string, selected: bool, budgetMicroUsd: Option<int>,
    settledMicroUsd: int, projectedMicroUsd: Option<int>, varianceMicroUsd: Option<int>, variancePct: Option<real>,
    status: ForecastStatus, standing: ScopeStanding, breachDate: Option<int>,
    historyDays: nat, requiredDays: nat, trimmedLeadingDays: int, firstObservedDay: Option<int>,
    shareOfTenantSettled: Option<real>, exceedsTenantSettled: bool)

  datatype ScopeKindGroup = ScopeKindGroup(
    kind: ScopeKind, keys: seq<string>, settledMicroUsd: int, residualMicroUsd: int, budgetMicroUsd: int,
    budgetedCount: nat)

  datatype SpendWarning = ScopeExceedsTenant(title: string) | KindExceedsTenant(kind: ScopeKind)

  datatype KindBudget = KindBudget(kind: ScopeKind, budgetMicroUsd: int, count: nat)

  datatype BudgetAllocation = BudgetAllocation(
    tenantBudgetMicroUsd: Option<int>, perKind: seq<KindBudget>, overAllocated: Option<bool>)

  datatype ScopeReconciliation = ScopeReconciliation(
    tenantSettledMicroUsd: int, groups: seq<ScopeKindGroup>, mixesKinds: bool,
    spendReconciles: bool, spendWarnings: seq<SpendWarning>, budgetAllocation: BudgetAllocation)

  datatype Fallback = NotOnRoster(requested: ForecastScope) | Unreadable(reason: string)

  datatype ScopedResult = ScopedResult(
    selected: ForecastScope, fallback: Option<Fallback>, section: BurndownSection,
    lines: seq<ScopeLine>, reconciliation: ScopeReconciliation)

  datatype ScopedError = TenantSectionRequired

  function BudgetOf(section: BurndownSection): Option<int> {
    if section.budget.Some? then Some(section.budget.value.amountMicroUsd) else None
  }

  /** Already over is a measured fact and outranks the projection. */
  function StandingOf(section: BurndownSection, budget: Option<int>): ScopeStanding {
    var projected := section.forecast.projectedMicroUsd;
    if section.forecast.status == InsufficientHistory then Unknown
    else if budget.None? then NoBudgetSet
    else if section.settledPeriodMicroUsd > budget.value then AlreadyOver
    else if projected.Some? && projected.value > budget.value then ProjectedBreach
    else OnTrack
  }

  function LineFrom(selected: ForecastScope, tenantSettled: int): ScopeSection -> ScopeLine {
    (entry: ScopeSection) =>
      var scope, section := entry.scope, entry.section;
      var budget, settled := BudgetOf(section), section.settledPeriodMicroUsd;
      ScopeLine(scope, ScopeKey(scope), ScopeLabel(scope), scope == selected, budget, settled,
        section.forecast.projectedMicroUsd, section.varianceMicroUsd, section.variancePct, section.forecast.status,
        StandingOf(section, budget),
        if section.forecast.breach.outcome == Breaches then section.forecast.breach.date else None,
        section.window.dayCount, section.window.requiredDays, section.window.trimmedLeadingDays,
        section.window.firstObservedDay,
        Ratio(settled, tenantSettled), scope.kind != TenantKind && settled > tenantSettled)
  }

  /** The tenant first, then by settled spend, then by label. */
  function LineOrder(labelLe: (string, string) -> bool): (ScopeLine, ScopeLine) -> bool {
    (a: ScopeLine, b: ScopeLine) =>
      if a.scope.kind == TenantKind then true
      else if b.scope.kind == TenantKind then false
      else
        (a.settledMicroUsd > b.settledMicroUsd
         || (a.settledMicroUsd == b.settledMicroUsd && labelLe(a.title, b.title)))
  }

  // ---- Groups and warnings ----

  const SectionScope: ScopeSection -> ForecastScope := (s: ScopeSection) => s.scope
  const LineSettled: ScopeLine -> int := (l: ScopeLine) => l.settledMicroUsd
  const LineBudget: ScopeLine -> int := (l: ScopeLine) => if l.budgetMicroUsd.Some? then l.budgetMicroUsd.value else 0
  const LineKey: ScopeLine -> string := (l: ScopeLine) => l.key
  const IsScoped: ScopeLine -> bool := (l: ScopeLine) => l.scope.kind != TenantKind
  const IsBudgeted: ScopeLine -> bool := (l: ScopeLine) => l.budgetMicroUsd.Some?

  function OfKind(kind: ScopeKind): ScopeLine -> bool {
    (l: ScopeLine) => l.scope.kind == kind
  }

  function HasLines(scoped: seq<ScopeLine>): ScopeKind -> bool {
    (k: ScopeKind) => k != TenantKind && exists i :: 0 <= i < |scoped| && scoped[i].scope.kind == k
  }

  function GroupOf(scoped: seq<ScopeLine>, tenantSettled: int): ScopeKind -> ScopeKindGroup {
    (kind: ScopeKind) =>
      var members := Filter(scoped, OfKind(kind));
      var settled, budgeted := SumBy(members, LineSettled), Filter(members, IsBudgeted);
      ScopeKindGroup(kind, Map(members, LineKey), settled, tenantSettled - settled, SumBy(budgeted, LineBudget),
                     |budgeted|)
  }

  function Groups(scoped: seq<ScopeLine>, tenantSettled: int): seq<ScopeKindGroup> {
    Map(Filter(SCOPE_KINDS, HasLines(scoped)), GroupOf(scoped, tenantSettled))
  }

  const Exceeds: ScopeLine -> bool := (l: ScopeLine) => l.exceedsTenantSettled
  const ScopeWarning: ScopeLine -> SpendWarning := (l: ScopeLine) => ScopeExceedsTenant(l.title)
  const Overdrawn: ScopeKindGroup -> bool := (g: ScopeKindGroup) => g.residualMicroUsd < 0
  const KindWarning: ScopeKindGroup -> SpendWarning := (g: ScopeKindGroup) => KindExceedsTenant(g.kind)

  function Warnings(scoped: seq<ScopeLine>, groups: seq<ScopeKindGroup>): seq<SpendWarning> {
    Map(Filter(scoped, Exceeds), ScopeWarning) + Map(Filter(groups, Overdrawn), KindWarning)
  }

  const CarriesBudget: ScopeKindGroup -> bool := (g: ScopeKindGroup) => g.budgetedCount > 0
  const BudgetOfGroup: ScopeKindGroup -> KindBudget := (g: ScopeKindGroup) =>
    KindBudget(g.kind, g.budgetMicroUsd, g.budgetedCount)

  function Allocation(groups: seq<ScopeKindGroup>, tenantBudget: Option<int>): BudgetAllocation {
    var perKind := Map(Filter(groups, CarriesBudget), BudgetOfGroup);
    BudgetAllocation(tenantBudget, perKind,
      if tenantBudget.None? || perKind == [] then None
      else Some(exists i :: 0 <= i < |perKind| && perKind[i].budgetMicroUsd > tenantBudget.value))
  }

  // ---- The result ----

  function Find(sections: seq<ScopeSection>, p: ScopeSection -> bool): (r: Option<ScopeSection>)
    ensures r.Some? ==> r.value in sections && p(r.value)
    ensures r.None? ==> forall s :: s in sections ==> !p(s)
  {
    if sections == [] then None
    else if p(sections[0]) then Some(sections[0])
    else Find(sections[1..], p)
  }

  const IsTenantSection: ScopeSection -> bool := (s: ScopeSection) => s.scope.kind == TenantKind

  function ForScope(scope: ForecastScope): ScopeSection -> bool {
    (s: ScopeSection) => s.scope == scope
  }

  function FallbackOf(matched: bool, requested: Option<ForecastScope>, reason: Option<string>): Option<Fallback> {
    if matched then None
    else if requested.Some? then Some(NotOnRoster(requested.value))
    else if reason.Some? && reason.value != "" then Some(Unreadable(reason.value))
    else None
  }

  /** The lines of the roster table, in the order they are shown. */
  function Lines(sections: seq<ScopeSection>, selected: ForecastScope, tenantSettled: int,
                 labelLe: (string, string) -> bool): seq<ScopeLine> {
    Sort(Map(sections, LineFrom(selected, tenantSettled)), LineOrder(labelLe))
  }

  function Reconciliation(lines: seq<ScopeLine>, tenantSettled: int, tenantBudget: Option<int>): ScopeReconciliation {
    var scoped := Filter(lines, IsScoped);
    var groups := Groups(scoped, tenantSettled);
    var warnings := Warnings(scoped, groups);
    ScopeReconciliation(tenantSettled, groups, |groups| > 1, warnings == [], warnings, Allocation(groups, tenantBudget))
  }

  function ScopedOf(sections: seq<ScopeSection>, requested: Option<ForecastScope>, reason: Option<string>,
                    budgets: seq<TenantBudget>, labelLe: (string, string) -> bool,
                    idLe: (string, string) -> bool): Result<ScopedResult, ScopedError>
  {
    var tenant := Find(sections, IsTenantSection);
    if tenant.None? then Err(TenantSectionRequired)
    else
      var found := if requested.Some? then Find(sections, ForScope(requested.value)) else None;
      var chosen := if found.Some? then found.value else tenant.value;
      var settled := tenant.value.section.settledPeriodMicroUsd;
      var row := SelectBudget(budgets, "tenant", "", tenant.value.section.today, idLe);
      var lines := Lines(sections, chosen.scope, settled, labelLe);
      Ok(ScopedResult(chosen.scope, FallbackOf(found.Some?, requested, reason), chosen.section, lines,
        Reconciliation(lines, settled, if row.Some? then Some(row.value.amountMicro) else None)))
  }

  /** The pushes: one warning per slice above the bill, then one per kind above it. */
  method WarnOfScopes(scoped: seq<ScopeLine>) returns (warnings: seq<SpendWarning>)
    ensures warnings == Map(Filter(scoped, Exceeds), ScopeWarning)
  {
    warnings := [];
    CollectNone(scoped, Exceeds, ScopeWarning);
    hide Filter, Map;
    for i := 0 to |scoped|
      invariant warnings == Map(Filter(scoped[..i], Exceeds), ScopeWarning)
    {
      CollectOneMore(scoped, i, Exceeds, ScopeWarning);
      if scoped[i].exceedsTenantSettled {
        warnings := warnings + [ScopeExceedsTenant(scoped[i].title)];
      }
    }
    assert scoped[..|scoped|] == scoped;
  }

  method WarnOfKinds(groups: seq<ScopeKindGroup>) returns (warnings: seq<SpendWarning>)
    ensures warnings == Map(Filter(groups, Overdrawn), KindWarning)
  {
    warnings := [];
    CollectNone(groups, Overdrawn, KindWarning);
    hide Filter, Map;
    for i := 0 to |groups|
      invariant warnings == Map(Filter(groups[..i], Overdrawn), KindWarning)
    {
      CollectOneMore(groups, i, Overdrawn, KindWarning);
      if groups[i].residualMicroUsd < 0 {
        warnings := warnings + [KindExceedsTenant(groups[i].kind)];
      }
    }
    assert groups[..|groups|] == groups;
  }

  method BuildScoped(sections: seq<ScopeSection>, requested: Option<ForecastScope>, reason: Option<string>,
                     budgets: seq<TenantBudget>, labelLe: (string, string) -> bool, idLe: (string, string) -> bool)
      returns (r: Result<ScopedResult, ScopedError>)
    ensures r == ScopedOf(sections, requested, reason, budgets, labelLe, idLe)
  {
    hide Sort, Filter, Map, Groups, Allocation, SelectBudget, LineFrom, LineOrder, FallbackOf, Find;
    var tenantEntry := Find(sections, IsTenantSection);
    if tenantEntry.None? {
      return Err(TenantSectionRequired);
    }
    var found := if requested.Some? then Find(sections, ForScope(requested.value)) else None;
    var chosen := if found.Some? then found.value else tenantEntry.value;
    var tenantSettled := tenantEntry.value.section.settledPeriodMicroUsd;
    var lines := Map(sections, LineFrom(chosen.scope, tenantSettled));
    var ranked := ArrayOf(lines);
    SortInPlace(ranked, LineOrder(labelLe));
    lines := ranked[..];
    var scoped := Filter(lines, IsScoped);
    var groups := Groups(scoped, tenantSettled);
    var spendWarnings := WarnOfScopes(scoped);
    var kindWarnings := WarnOfKinds(groups);
    spendWarnings := spendWarnings + kindWarnings;
    var row := SelectBudget(budgets, "tenant", "", tenantEntry.value.section.today, idLe);
    var tenantBudget := if row.Some? then Some(row.value.amountMicro) else None;
    r := Ok(ScopedResult(chosen.scope, FallbackOf(found.Some?, requested, reason), chosen.section, lines,
      ScopeReconciliation(tenantSettled, groups, |groups| > 1, |spendWarnings| == 0, spendWarnings,
                          Allocation(groups, tenantBudget))));
  }
}
