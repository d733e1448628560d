/** Which budget applies (selectBudget in web/lib/budgetVsActual.ts). Dates are day numbers; the order
    `localeCompare` puts on budget ids is a parameter. */
module Budgets {
  import opened Results
  import opened Sums
  import opened Sorting

  const COMPARED_PERIOD := "month"

  datatype TenantBudget = TenantBudget(
    budgetId: string, period: string, amountMicro: int, scopeKind: string, scopeValue: string,
    startsOn: int, endsOn: Option<int>)

  /** A monthly budget in force on `onDate`. */
  predicate InForce(b: TenantBudget, onDate: int) {
    b.period == COMPARED_PERIOD && b.startsOn <= onDate && (b.endsOn.None? || b.endsOn.value >= onDate)
  }

  function Covers(scopeKind: string, scopeValue: string, onDate: int): TenantBudget -> bool {
    (b: TenantBudget) => InForce(b, onDate) && b.scopeKind == scopeKind && b.scopeValue == scopeValue
  }

  /** Newest start first, ids in order between equal starts. */
  function NewestFirst(idLe: (string, string) -> bool): (TenantBudget, TenantBudget) -> bool {
    (a: TenantBudget, b: TenantBudget) =>
      if a.startsOn == b.startsOn then idLe(a.budgetId, b.budgetId) else a.startsOn > b.startsOn
  }

  function SelectBudget(budgets: seq<TenantBudget>, scopeKind: string, scopeValue: string, onDate: int,
                        idLe: (string, string) -> bool): Option<TenantBudget>
  {
    var matches := Sort(Filter(budgets, Covers(scopeKind, scopeValue, onDate)), NewestFirst(idLe));
    if matches == [] then None else Some(matches[0])
  }

  lemma {:induction false} NewestFirstIsTotal(idLe: (string, string) -> bool)
    requires TotalPreorder(idLe)
    ensures TotalPreorder(NewestFirst(idLe))
  {
    var le := NewestFirst(idLe);
    forall a, b ensures le(a, b) || le(b, a) {
      assert idLe(a.budgetId, b.budgetId) || idLe(b.budgetId, a.budgetId);
    }
    forall a, b, c | le(a, b) && le(b, c) ensures le(a, c) {
      assert idLe(a.budgetId, b.budgetId) && idLe(b.budgetId, c.budgetId) ==> idLe(a.budgetId, c.budgetId);
    }
  }

  /** The budget is monthly, for this scope, and in force on the day: started by then and not yet ended. */
  predicate AppliesOn(b: TenantBudget, scopeKind: string, scopeValue: string, onDate: int) {
    && b.period == "month" && b.scopeKind == scopeKind && b.scopeValue == scopeValue
    && b.startsOn <= onDate && (b.endsOn.Some? ==> onDate <= b.endsOn.value)
  }

  /** It returns a budget that applies exactly when there is one, and then the one that started last, by id
      between equal starts. */
  lemma {:induction false} SelectBudgetIs(budgets: seq<TenantBudget>, scopeKind: string, scopeValue: string,
                                          onDate: int, idLe: (string, string) -> bool)
    requires TotalPreorder(idLe)
    ensures var r := SelectBudget(budgets, scopeKind, scopeValue, onDate, idLe);
      && (r.Some? <==> exists b :: b in budgets && AppliesOn(b, scopeKind, scopeValue, onDate))
      && (r.Some? ==>
           && r.value in budgets && AppliesOn(r.value, scopeKind, scopeValue, onDate)
           && forall b :: b in budgets && AppliesOn(b, scopeKind, scopeValue, onDate) ==>
                r.value.startsOn > b.startsOn
                || (r.value.startsOn == b.startsOn && idLe(r.value.budgetId, b.budgetId)))
  {
    hide SelectBudget;
    CoveringChosen(budgets, scopeKind, scopeValue, onDate, idLe);
    assert forall b :: Covers(scopeKind, scopeValue, onDate)(b) <==> AppliesOn(b, scopeKind, scopeValue, onDate);
  }

  lemma {:induction false} CoveringChosen(budgets: seq<TenantBudget>, scopeKind: string, scopeValue: string,
                                          onDate: int, idLe: (string, string) -> bool)
    requires TotalPreorder(idLe)
    ensures var covers, r := Covers(scopeKind, scopeValue, onDate),
      SelectBudget(budgets, scopeKind, scopeValue, onDate, idLe);
      && (r.Some? <==> exists b :: b in budgets && covers(b))
      && (r.Some? ==> r.value in budgets && covers(r.value)
                      && forall b :: b in budgets && covers(b) ==> NewestFirst(idLe)(r.value, b))
  {
    var kept := Filter(budgets, Covers(scopeKind, scopeValue, onDate));
    NewestFirstIsTotal(idLe);
    SortSorts(kept, NewestFirst(idLe));
    SortMembers(kept, NewestFirst(idLe));
    var sorted := Sort(kept, NewestFirst(idLe));
    if sorted != [] {
      assert sorted[0] in sorted;
      forall b | b in kept ensures NewestFirst(idLe)(sorted[0], b) {
        assert b in sorted;
        var i :| 0 <= i < |sorted| && sorted[i] == b;
        assert NewestFirst(idLe)(b, b);
      }
    }
    if exists b :: b in budgets && Covers(scopeKind, scopeValue, onDate)(b) {
      var b :| b in budgets && Covers(scopeKind, scopeValue, onDate)(b);
      assert b in kept && b in sorted;
    }
  }

  ghost predicate UniqueIds(budgets: seq<TenantBudget>, idLe: (string, string) -> bool) {
    forall i, j :: 0 <= i < |budgets| && 0 <= j < |budgets|
      && idLe(budgets[i].budgetId, budgets[j].budgetId) && idLe(budgets[j].budgetId, budgets[i].budgetId)
      ==> budgets[i] == budgets[j]
  }

  /** It does not flicker: whatever order the gateway lists the budgets in, the answer is the same. */
  lemma {:induction false} SelectBudgetIgnoresOrder(budgets: seq<TenantBudget>, others: seq<TenantBudget>,
                                                    scopeKind: string, scopeValue: string, onDate: int,
                                                    idLe: (string, string) -> bool)
    requires TotalPreorder(idLe) && UniqueIds(budgets, idLe) && multiset(budgets) == multiset(others)
    ensures SelectBudget(budgets, scopeKind, scopeValue, onDate, idLe)
      == SelectBudget(others, scopeKind, scopeValue, onDate, idLe)
  {
    var p, le := Covers(scopeKind, scopeValue, onDate), NewestFirst(idLe);
    var s, t := Sort(Filter(budgets, p), le), Sort(Filter(others, p), le);
    NewestFirstIsTotal(idLe);
    FilterPermutes(budgets, others, p);
    SortPermutes(Filter(budgets, p), le);
    SortPermutes(Filter(others, p), le);
    SortSorts(Filter(budgets, p), le);
    SortSorts(Filter(others, p), le);
    SortMembers(Filter(budgets, p), le);
    forall i, j | 0 <= i < |s| && 0 <= j < |s| && le(s[i], s[j]) && le(s[j], s[i]) ensures s[i] == s[j] {
      assert s[i] in s && s[j] in s;
      var a :| 0 <= a < |budgets| && budgets[a] == s[i];
      var b :| 0 <= b < |budgets| && budgets[b] == s[j];
    }
    SortedUnique(s, t, le);
  }
}
