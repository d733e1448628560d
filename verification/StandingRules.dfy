/** What every line of the scope table says: its standing, decided from what was spent and what is
    projected, and the figures beside it. */
module StandingRules {
  import opened Money
  import opened Results
  import opened Sums
  import opened Sorting
  import opened Calendar
  import opened SpendScopes
  import opened SettledSeries
  import opened SeriesTheorems
  import opened Forecast
  import opened ForecastTheorems
  import opened Budgets
  import opened Burndown
  import opened BurndownTheorems
  import opened ScopedForecast
  import opened ScopedTheorems
  import opened StandingTheorems

  /** The projected total is the last point of the burn-down. */
  function LastPoint(section: BurndownSection): int
    requires section.forecast.burndown != []
  {
    section.forecast.burndown[|section.forecast.burndown| - 1].projectedMicroUsd
  }

  /** The standing of a section that has spent `spent` on its settled days. Measured spend outranks the
      projection, and neither is judged below fourteen days of the scope's own history. */
  ghost predicate StandingHolds(standing: ScopeStanding, section: BurndownSection, spent: int) {
    var history, budget := section.window.dayCount, section.budget;
    && (history >= 14 ==> section.forecast.burndown != [])
    && (standing == Unknown <==> history < 14)
    && (standing == NoBudgetSet <==> history >= 14 && budget.None?)
    && (standing == AlreadyOver <==> history >= 14 && budget.Some? && spent > budget.value.amountMicroUsd)
    && (standing == ProjectedBreach <==>
         && history >= 14 && budget.Some? && spent <= budget.value.amountMicroUsd
         && LastPoint(section) > budget.value.amountMicroUsd)
    && (standing == OnTrack <==>
         && history >= 14 && budget.Some? && spent <= budget.value.amountMicroUsd
         && LastPoint(section) <= budget.value.amountMicroUsd)
  }

  lemma {:induction false} StandsFrom(section: BurndownSection)
    requires section.forecast.status == InsufficientHistory <==> section.window.dayCount < 14
    requires section.forecast.status == Projected ==>
      section.forecast.burndown != [] && section.forecast.projectedMicroUsd == Some(LastPoint(section))
    ensures StandingHolds(StandingOf(section, BudgetOf(section)), section, section.settledPeriodMicroUsd)
  {
  }

  lemma {:induction false} SectionStands(series: SettledSpendSeries, budgets: seq<TenantBudget>, scope: ForecastScope,
                                         sqrt: real -> real, idLe: (string, string) -> bool, section: BurndownSection)
    requires InRange(series.periodStart) && SectionWith(series, budgets, scope, sqrt, idLe, section)
    ensures StandingHolds(StandingOf(section, BudgetOf(section)), section, section.settledPeriodMicroUsd)
    ensures section.window.requiredDays == 14
  {
    hide ForecastOf, SectionOf, WellBuilt, Fed, MonthEnd, InRange, ChartReconciles, Filter, EngineInput, WindowOf,
         StandingHolds, StandingOf, Breach, ChartActual;
    SectionForecast(series, budgets, scope, sqrt, idLe, section);
    WindowStatesTheInput(series, BudgetOf(section), sqrt);
    StatusByHistory(EngineInput(series, PointTotal, BudgetOf(section)), sqrt);
    RequiredDays(series);
    if section.forecast.status == Projected {
      SectionReadsOff(series, budgets, scope, sqrt, idLe, section);
    }
    StandsFrom(section);
  }

  /** One line of the table, from the section it was made of and the spans it was read from. */
  ghost predicate LineHolds(l: ScopeLine, section: BurndownSection, spans: seq<Span>, days: seq<int>) {
    var spent, tenant := ScopeSpend(spans, l.scope, days), ScopeSpend(spans, TENANT_SCOPE, days);
    && l.settledMicroUsd == spent == section.settledPeriodMicroUsd
    && StandingHolds(l.standing, section, spent)
    && l.historyDays == section.window.dayCount && l.requiredDays == 14
    && l.projectedMicroUsd == section.forecast.projectedMicroUsd
    && l.varianceMicroUsd == section.varianceMicroUsd && l.variancePct == section.variancePct
    && l.budgetMicroUsd == (if section.budget.Some? then Some(section.budget.value.amountMicroUsd) else None)
    && (l.breachDate.Some? <==> section.forecast.breach.outcome == Breaches)
    && (l.breachDate.Some? ==> l.breachDate == section.forecast.breach.date)
    && (l.shareOfTenantSettled.Some? <==> tenant != 0)
    && (tenant != 0 ==> l.shareOfTenantSettled.value * tenant as real == spent as real)
    && (l.exceedsTenantSettled <==> l.scope.kind != TenantKind && spent > tenant)
  }

  lemma {:induction false} LineIsFrom(e: ScopeSection, selected: ForecastScope, spans: seq<Span>, days: seq<int>)
    requires e.section.settledPeriodMicroUsd == ScopeSpend(spans, e.scope, days)
    requires StandingHolds(StandingOf(e.section, BudgetOf(e.section)), e.section, e.section.settledPeriodMicroUsd)
    requires e.section.window.requiredDays == 14
    requires e.section.forecast.breach.outcome == Breaches ==> e.section.forecast.breach.date.Some?
    ensures var l := LineFrom(selected, ScopeSpend(spans, TENANT_SCOPE, days))(e);
      && LineHolds(l, e.section, spans, days) && l.scope == e.scope && (l.selected <==> e.scope == selected)
      && l.key == ScopeKey(e.scope) && l.title == ScopeLabel(e.scope)
  {
    hide ScopeSpend, StandingHolds, StandingOf, ScopeKey, ScopeLabel, Ratio;
    RatioIs(e.section.settledPeriodMicroUsd, ScopeSpend(spans, TENANT_SCOPE, days));
  }

  lemma {:induction false} BreachHasDate(section: BurndownSection, series: SettledSpendSeries, sqrt: real -> real)
    requires InRange(series.periodStart) && ForecastFor(series, BudgetOf(section), sqrt) == Ok(section.forecast)
    ensures section.forecast.breach.outcome == Breaches ==> section.forecast.breach.date.Some?
  {
    hide EngineInput, InRange;
    BreachDated(EngineInput(series, PointTotal, BudgetOf(section)), sqrt);
  }

  lemma {:induction false} BreachDated(input: ForecastInput, sqrt: real -> real)
    requires ForecastOf(input, sqrt).Ok?
    ensures var f := ForecastOf(input, sqrt).value; f.breach.outcome == Breaches ==> f.breach.date.Some?
  {
    hide ForecastOf, Breach, AcceptableInput, BasisOf, Settled, Basis.Burndown, Basis.Valid;
    ForecastAcceptsExactly(input, sqrt);
    RefusesBelowHistoryFloor(input, sqrt);
    var f := ForecastOf(input, sqrt).value;
    if f.status == Projected {
      ReadOffBurndown(input, sqrt);
      if input.budgetMicroUsd.Some? {
        BreachesWhenReached(f.burndown, input.budgetMicroUsd.value, input.periodStart);
      } else {
        NoBudgetNoBreach(f.burndown, input.periodStart);
      }
    }
  }

  lemma {:induction false} NoBudgetNoBreach(points: seq<BurndownPoint>, periodStart: int)
    ensures Breach(points, None, periodStart).outcome == NoBudget
  {
  }

  lemma {:induction false} ReadStands(e: ScopeSection, spans: seq<Span>, today: int, budgets: seq<TenantBudget>,
                                      sqrt: real -> real, idLe: (string, string) -> bool)
    requires InRange(today) && ReadFrom(e, spans, today, budgets, sqrt, idLe)
    ensures StandingHolds(StandingOf(e.section, BudgetOf(e.section)), e.section, e.section.settledPeriodMicroUsd)
    ensures e.section.window.requiredDays == 14
    ensures e.section.forecast.breach.outcome == Breaches ==> e.section.forecast.breach.date.Some?
  {
    var b := BoundsAt(today);
    hide BoundsAt, SectionOf, SeriesFrom, AnswersCost, AnswersLanding, InRange, MonthEnd, WellBuilt, StandingHolds;
    var rows, landing :| AnswersCost(spans, e.scope, b, rows) && AnswersLanding(spans, b, landing)
      && SectionOf(SeriesFrom(e.scope, b, rows, landing), budgets, e.scope, sqrt, idLe) == Ok(e.section);
    var series := SeriesFrom(e.scope, b, rows, landing);
    SeriesPeriod(e.scope, b, rows, landing);
    BuiltSeriesIsWellBuilt(e.scope, today, rows, landing);
    SectionStands(series, budgets, e.scope, sqrt, idLe, e.section);
    SectionForecast(series, budgets, e.scope, sqrt, idLe, e.section);
    BreachHasDate(e.section, series, sqrt);
  }

  /** Every line of the table. From sections read as one snapshot, each line is some section's, and says what
      that scope spent, where it stands against its budget, and how much of the bill it is. */
  lemma {:induction false} LinesStand(sections: seq<ScopeSection>, requested: Option<ForecastScope>,
                                      reason: Option<string>, budgets: seq<TenantBudget>,
                                      labelLe: (string, string) -> bool, sqrt: real -> real,
                                      idLe: (string, string) -> bool, spans: seq<Span>, today: int)
    requires InRange(today) && OneEach(sections) && OneSnapshot(sections, spans, today, budgets, sqrt, idLe)
    ensures var r, days := ScopedOf(sections, requested, reason, budgets, labelLe, idLe),
      SettledDaysOf(spans, BoundsAt(today));
      && r.Ok?
      && forall l :: l in r.value.lines ==>
           exists e :: e in sections && e.scope == l.scope && LineHolds(l, e.section, spans, days)
  {
    var days := SettledDaysOf(spans, BoundsAt(today));
    hide ScopedOf, SettledDaysOf, BoundsAt, OneEach, InRange, ScopeSpend, LineHolds, Lines, LineFrom, ReadFrom,
         StandingHolds, Map, Filter, SumBy;
    SnapshotSettles(sections, spans, today, budgets, sqrt, idLe);
    GroupsAre(sections, requested, reason, budgets, labelLe, idLe, spans, days);
    var r := ScopedOf(sections, requested, reason, budgets, labelLe, idLe).value;
    LineOfSection(sections, r.selected, r.reconciliation.tenantSettledMicroUsd, labelLe);
    forall l | l in r.lines
      ensures exists e :: e in sections && e.scope == l.scope && LineHolds(l, e.section, spans, days)
    {
      var e :| e in sections && l == LineFrom(r.selected, r.reconciliation.tenantSettledMicroUsd)(e);
      ReadStands(e, spans, today, budgets, sqrt, idLe);
      LineIsFrom(e, r.selected, spans, days);
    }
  }

  // ---- Budgets, groups and warnings ----

  function BudgetedOf(kind: ScopeKind): ScopeLine -> bool {
    (l: ScopeLine) => l.scope.kind == kind && l.budgetMicroUsd.Some?
  }

  ghost predicate HasBudgets(lines: seq<ScopeLine>, kind: ScopeKind) {
    kind != TenantKind && exists l :: l in lines && BudgetedOf(kind)(l)
  }

  function KindBudgets(lines: seq<ScopeLine>, kind: ScopeKind): int {
    SumWhere(lines, BudgetedOf(kind), LineBudget)
  }

  /** What the reconciliation says about the budgets: each listed kind's are added up and counted, kinds are
      never mixed in one sum, and they are over-allocated when some kind alone exceeds the tenant's. */
  ghost predicate BudgetsHold(r: ScopeReconciliation, lines: seq<ScopeLine>, tenantBudget: Option<int>) {
    var a := r.budgetAllocation;
    && (forall g :: g in r.groups ==>
         && g.budgetMicroUsd == KindBudgets(lines, g.kind)
         && g.budgetedCount == |Filter(lines, BudgetedOf(g.kind))|)
    && a.tenantBudgetMicroUsd == tenantBudget
    && (forall k: KindBudget :: k in a.perKind ==>
         HasBudgets(lines, k.kind) && k.budgetMicroUsd == KindBudgets(lines, k.kind)
           && k.count == |Filter(lines, BudgetedOf(k.kind))|)
    && (forall kind :: HasBudgets(lines, kind) ==> exists k :: k in a.perKind && k.kind == kind)
    && (a.overAllocated.Some? <==> tenantBudget.Some? && exists kind :: HasBudgets(lines, kind))
    && (a.overAllocated.Some? ==>
         (a.overAllocated.value <==>
           exists kind :: HasBudgets(lines, kind) && KindBudgets(lines, kind) > tenantBudget.value))
  }

  lemma {:induction false} GroupBudgets(lines: seq<ScopeLine>, kind: ScopeKind, tenantSettled: int)
    requires kind != TenantKind
    ensures var g := GroupOf(Filter(lines, IsScoped), tenantSettled)(kind);
      && g.kind == kind && g.budgetMicroUsd == KindBudgets(lines, kind)
      && g.budgetedCount == |Filter(lines, BudgetedOf(kind))|
  {
    var scoped := Filter(lines, IsScoped);
    var members := Filter(scoped, OfKind(kind));
    FilterImplied(lines, IsScoped, OfKind(kind));
    FilterTwice(lines, OfKind(kind), IsBudgeted);
    FilterCongruent(lines, Both(OfKind(kind), IsBudgeted), BudgetedOf(kind));
    assert Filter(members, IsBudgeted) == Filter(lines, BudgetedOf(kind));
    WhereIsFilter(lines, BudgetedOf(kind), LineBudget);
  }

  ghost predicate HasKind(lines: seq<ScopeLine>, kind: ScopeKind) {
    kind != TenantKind && exists l :: l in lines && l.scope.kind == kind
  }

  lemma {:induction false} GroupMembers(lines: seq<ScopeLine>, tenantSettled: int)
    ensures var scoped := Filter(lines, IsScoped);
      forall g :: g in Groups(scoped, tenantSettled) ==>
        g.kind != TenantKind && g == GroupOf(scoped, tenantSettled)(g.kind)
  {
    hide GroupOf;
    var scoped := Filter(lines, IsScoped);
    var kinds := Filter(SCOPE_KINDS, HasLines(scoped));
    forall g | g in Groups(scoped, tenantSettled)
      ensures g.kind != TenantKind && g == GroupOf(scoped, tenantSettled)(g.kind)
    {
      var i :| 0 <= i < |kinds| && g == GroupOf(scoped, tenantSettled)(kinds[i]);
      GroupKind(scoped, tenantSettled, kinds[i]);
      assert kinds[i] in kinds;
    }
  }

  lemma {:induction false} KindIsGrouped(lines: seq<ScopeLine>, tenantSettled: int, kind: ScopeKind)
    requires HasKind(lines, kind)
    ensures exists g :: g in Groups(Filter(lines, IsScoped), tenantSettled) && g.kind == kind
  {
    hide GroupOf;
    var scoped := Filter(lines, IsScoped);
    var kinds := Filter(SCOPE_KINDS, HasLines(scoped));
    var l :| l in lines && l.scope.kind == kind;
    var i :| 0 <= i < |scoped| && scoped[i] == l;
    AllKinds();
    assert kind in kinds;
    hide Filter, HasLines;
    var j :| 0 <= j < |kinds| && kinds[j] == kind;
    GroupKind(scoped, tenantSettled, kind);
    assert Groups(scoped, tenantSettled)[j] == GroupOf(scoped, tenantSettled)(kind);
  }

  lemma {:induction false} GroupKind(scoped: seq<ScopeLine>, tenantSettled: int, kind: ScopeKind)
    ensures GroupOf(scoped, tenantSettled)(kind).kind == kind
  {
  }

  /** One group's budgets, from the lines. */
  ghost predicate GroupCounts(g: ScopeKindGroup, lines: seq<ScopeLine>) {
    && g.kind != TenantKind && g.budgetMicroUsd == KindBudgets(lines, g.kind)
    && g.budgetedCount == |Filter(lines, BudgetedOf(g.kind))|
    && (g.budgetedCount > 0 <==> HasBudgets(lines, g.kind))
  }

  lemma {:induction false} GroupHasCounts(lines: seq<ScopeLine>, tenantSettled: int, g: ScopeKindGroup)
    requires g in Groups(Filter(lines, IsScoped), tenantSettled)
    ensures GroupCounts(g, lines)
  {
    GroupMembers(lines, tenantSettled);
    hide GroupOf, Groups, KindBudgets;
    GroupBudgets(lines, g.kind, tenantSettled);
    var kept := Filter(lines, BudgetedOf(g.kind));
    assert kept != [] ==> kept[0] in kept;
  }

  /** The budgets of the table, reconciled. */
  lemma {:induction false} BudgetsAre(lines: seq<ScopeLine>, tenantSettled: int, tenantBudget: Option<int>)
    ensures BudgetsHold(Reconciliation(lines, tenantSettled, tenantBudget), lines, tenantBudget)
  {
    var groups := Groups(Filter(lines, IsScoped), tenantSettled);
    hide Groups, GroupCounts, Allocation, Filter, KindBudgets;
    forall g | g in groups ensures GroupCounts(g, lines) {
      GroupHasCounts(lines, tenantSettled, g);
    }
    forall kind | HasBudgets(lines, kind) ensures exists g :: g in groups && g.kind == kind {
      KindIsGrouped(lines, tenantSettled, kind);
    }
    AllocationIs(lines, groups, tenantBudget);
    hide HasBudgets, Warnings;
    CountsOfGroups(lines, groups);
  }

  lemma {:induction false} CountsOfGroups(lines: seq<ScopeLine>, groups: seq<ScopeKindGroup>)
    requires forall g :: g in groups ==> GroupCounts(g, lines)
    ensures forall g :: g in groups ==>
      g.budgetMicroUsd == KindBudgets(lines, g.kind) && g.budgetedCount == |Filter(lines, BudgetedOf(g.kind))|
  {
  }

  lemma {:induction false} AllocationIs(lines: seq<ScopeLine>, groups: seq<ScopeKindGroup>, tenantBudget: Option<int>)
    requires forall g :: g in groups ==> GroupCounts(g, lines)
    requires forall kind :: HasBudgets(lines, kind) ==> exists g :: g in groups && g.kind == kind
    ensures var a := Allocation(groups, tenantBudget);
      && a.tenantBudgetMicroUsd == tenantBudget
      && (forall k: KindBudget :: k in a.perKind ==>
           HasBudgets(lines, k.kind) && k.budgetMicroUsd == KindBudgets(lines, k.kind)
             && k.count == |Filter(lines, BudgetedOf(k.kind))|)
      && (forall kind :: HasBudgets(lines, kind) ==> exists k :: k in a.perKind && k.kind == kind)
      && (a.overAllocated.Some? <==> tenantBudget.Some? && exists kind :: HasBudgets(lines, kind))
      && (a.overAllocated.Some? ==>
           (a.overAllocated.value <==>
             exists kind :: HasBudgets(lines, kind) && KindBudgets(lines, kind) > tenantBudget.value))
  {
    hide HasBudgets, KindBudgets, Filter;
    var carried := Filter(groups, CarriesBudget);
    var perKind := Map(carried, BudgetOfGroup);
    forall k | k in perKind
      ensures HasBudgets(lines, k.kind) && k.budgetMicroUsd == KindBudgets(lines, k.kind)
        && k.count == |Filter(lines, BudgetedOf(k.kind))|
    {
      var i :| 0 <= i < |perKind| && perKind[i] == k;
      assert carried[i] in carried;
    }
    forall kind | HasBudgets(lines, kind) ensures exists k :: k in perKind && k.kind == kind {
      var g :| g in groups && g.kind == kind;
      assert g in carried;
      var i :| 0 <= i < |carried| && carried[i] == g;
      assert perKind[i] in perKind;
    }
    assert perKind != [] ==> perKind[0] in perKind;
    assert forall i :: 0 <= i < |perKind| ==> perKind[i] in perKind;
  }

  /** The warnings, one by one: a slice is named exactly when it is above the bill, a kind exactly when its
      slices together are. */
  ghost predicate WarningsHold(r: ScopeReconciliation, lines: seq<ScopeLine>) {
    && (forall w :: w in r.spendWarnings <==>
         || (exists l :: l in lines && l.scope.kind != TenantKind && l.exceedsTenantSettled
              && w == ScopeExceedsTenant(l.title))
         || (exists g :: g in r.groups && g.residualMicroUsd < 0 && w == KindExceedsTenant(g.kind)))
    && (r.mixesKinds <==> |r.groups| > 1)
  }

  lemma {:induction false} WarningsAre(lines: seq<ScopeLine>, tenantSettled: int, tenantBudget: Option<int>)
    ensures WarningsHold(Reconciliation(lines, tenantSettled, tenantBudget), lines)
  {
    var scoped := Filter(lines, IsScoped);
    var groups := Groups(scoped, tenantSettled);
    hide Groups;
    forall w {:trigger w in Warnings(scoped, groups)}
      ensures w in Warnings(scoped, groups) <==>
        || (exists l :: l in scoped && Exceeds(l) && ScopeWarning(l) == w)
        || (exists g :: g in groups && Overdrawn(g) && KindWarning(g) == w)
    {
      InMapped(scoped, Exceeds, ScopeWarning, w);
      InMapped(groups, Overdrawn, KindWarning, w);
    }
    hide Warnings, Filter;
  }

  /** The reconciliation of the page: its budgets and its warnings, from the lines it shows. */
  lemma {:induction false} ReconciliationIs(sections: seq<ScopeSection>, requested: Option<ForecastScope>,
                                            reason: Option<string>, budgets: seq<TenantBudget>,
                                            labelLe: (string, string) -> bool, idLe: (string, string) -> bool)
    returns (tenant: ScopeSection)
    requires ScopedOf(sections, requested, reason, budgets, labelLe, idLe).Ok?
    ensures tenant in sections && tenant.scope.kind == TenantKind
    ensures var r := ScopedOf(sections, requested, reason, budgets, labelLe, idLe).value;
      var row := SelectBudget(budgets, "tenant", "", tenant.section.today, idLe);
      && r.reconciliation.tenantSettledMicroUsd == tenant.section.settledPeriodMicroUsd
      && BudgetsHold(r.reconciliation, r.lines, if row.Some? then Some(row.value.amountMicro) else None)
      && WarningsHold(r.reconciliation, r.lines)
  {
    hide Lines, SelectBudget, Reconciliation, BudgetsHold, WarningsHold, FallbackOf;
    tenant := Find(sections, IsTenantSection).value;
    var row := SelectBudget(budgets, "tenant", "", tenant.section.today, idLe);
    var tenantBudget := if row.Some? then Some(row.value.amountMicro) else None;
    var r := ScopedOf(sections, requested, reason, budgets, labelLe, idLe).value;
    BudgetsAre(r.lines, tenant.section.settledPeriodMicroUsd, tenantBudget);
    WarningsAre(r.lines, tenant.section.settledPeriodMicroUsd, tenantBudget);
    TenantFigure(r.lines, tenant.section.settledPeriodMicroUsd, tenantBudget);
  }

  lemma {:induction false} TenantFigure(lines: seq<ScopeLine>, tenantSettled: int, tenantBudget: Option<int>)
    ensures Reconciliation(lines, tenantSettled, tenantBudget).tenantSettledMicroUsd == tenantSettled
  {
    hide Groups, Warnings, Allocation, Filter;
  }
}
