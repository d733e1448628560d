/** Capping, folding and pivoting cost groups (web/lib/explore.ts and the reads of queryCostExplore in
    web/lib/clickhouse.ts). A span's cost is `None` when it could not be priced; sums skip those. */
module Explore {
  import opened Money
  import opened Results
  import opened Sums
  import opened Sorting

  const MAX_EXPLORE_GROUPS := 12
  const OTHER_GROUP := "\U{00B7} other"

  // ---- Capping ----

  datatype ExploreTotal = ExploreTotal(group: string, totalMicroUsd: int, spanCount: nat, unpricedSpanCount: nat)

  datatype BreakdownRow = BreakdownRow(group: string, totalMicroUsd: Option<int>, spanCount: nat,
                                       unpricedSpanCount: nat)

  datatype CappedGroups = CappedGroups(
    breakdown: seq<BreakdownRow>, keptGroups: set<string>, orderedGroups: seq<string>, truncatedGroups: nat,
    totalMicroUsd: Option<int>, unknownCostGroups: seq<string>, spanCount: int, unpricedSpanCount: int)

  const TotalOf: ExploreTotal -> int := (r: ExploreTotal) => r.totalMicroUsd
  const SpansOf: ExploreTotal -> int := (r: ExploreTotal) => r.spanCount
  const UnpricedOf: ExploreTotal -> int := (r: ExploreTotal) => r.unpricedSpanCount
  const GroupOfTotal: ExploreTotal -> string := (r: ExploreTotal) => r.group

  /** Every span of the group was unpriced: its cost is unknown, not zero. */
  const CostIsUnknown: ExploreTotal -> bool := (r: ExploreTotal) =>
    r.spanCount > 0 && r.unpricedSpanCount >= r.spanCount

  /** Unknown costs first, then by spend. */
  predicate RankBefore(a: ExploreTotal, b: ExploreTotal) {
    if CostIsUnknown(a) != CostIsUnknown(b) then CostIsUnknown(a) else a.totalMicroUsd >= b.totalMicroUsd
  }

  const RowOf: ExploreTotal -> BreakdownRow := (r: ExploreTotal) =>
    BreakdownRow(r.group, if CostIsUnknown(r) then None else Some(r.totalMicroUsd), r.spanCount, r.unpricedSpanCount)

  const IsBlank: BreakdownRow -> bool := (r: BreakdownRow) => r.totalMicroUsd.None?
  const NameOf: BreakdownRow -> string := (r: BreakdownRow) => r.group

  function NotIn(names: seq<string>): BreakdownRow -> bool {
    (r: BreakdownRow) => r.group !in names
  }

  function Ranked(totals: seq<ExploreTotal>): seq<ExploreTotal> {
    Sort(totals, RankBefore)
  }

  /** Where `slice(0, max)` cuts. */
  function Cut(totals: seq<ExploreTotal>, max: int): (k: nat)
    ensures k <= |Ranked(totals)|
  {
    Min(Max(0, max), |Ranked(totals)|)
  }

  function Kept(totals: seq<ExploreTotal>, max: int): seq<ExploreTotal> {
    Ranked(totals)[..Cut(totals, max)]
  }

  function Tail(totals: seq<ExploreTotal>, max: int): seq<ExploreTotal> {
    Ranked(totals)[Cut(totals, max)..]
  }

  lemma {:induction false} SumOfNats<T>(s: seq<T>, f: T -> int)
    requires forall x :: x in s ==> f(x) >= 0
    ensures SumBy(s, f) >= 0
  {
    if s != [] {
      SumOfNats(s[1..], f);
    }
  }

  function Folded(tail: seq<ExploreTotal>): ExploreTotal {
    SumOfNats(tail, SpansOf);
    SumOfNats(tail, UnpricedOf);
    ExploreTotal(OTHER_GROUP, SumBy(tail, TotalOf), SumBy(tail, SpansOf), SumBy(tail, UnpricedOf))
  }

  function Tabulated(kept: seq<ExploreTotal>, tail: seq<ExploreTotal>): seq<BreakdownRow> {
    Map(kept, RowOf) + if tail == [] then [] else [RowOf(Folded(tail))]
  }

  function Breakdown(totals: seq<ExploreTotal>, max: int): seq<BreakdownRow> {
    Tabulated(Kept(totals, max), Tail(totals, max))
  }

  function Capped(totals: seq<ExploreTotal>, max: int): CappedGroups {
    var sorted, breakdown := Ranked(totals), Breakdown(totals, max);
    var spans, unpriced := SumBy(sorted, SpansOf), SumBy(sorted, UnpricedOf);
    var unknown := Map(Filter(breakdown, IsBlank), NameOf);
    CappedGroups(breakdown, set r | r in Kept(totals, max) :: r.group,
      Map(Filter(breakdown, NotIn(unknown)), NameOf), |Tail(totals, max)|,
      if spans > 0 && unpriced >= spans then None else Some(SumBy(sorted, TotalOf)), unknown, spans, unpriced)
  }

  /** Kept and folded groups are all the groups, and every kept one ranks before every folded one. */
  lemma {:induction false} KeptAndTail(totals: seq<ExploreTotal>, max: int)
    ensures Kept(totals, max) + Tail(totals, max) == Ranked(totals)
    ensures multiset(Ranked(totals)) == multiset(totals) && |Ranked(totals)| == |totals|
    ensures |Kept(totals, max)| == Min(Max(0, max), |totals|)
    ensures forall k, t :: k in Kept(totals, max) && t in Tail(totals, max) ==> RankBefore(k, t)
  {
    SortPermutes(totals, RankBefore);
    SortSorts(totals, RankBefore);
    hide Sort;
    var sorted, cut := Ranked(totals), Cut(totals, max);
    forall k, t | k in Kept(totals, max) && t in Tail(totals, max) ensures RankBefore(k, t) {
      var i :| 0 <= i < cut && sorted[..cut][i] == k;
      var j :| 0 <= j < |sorted| - cut && sorted[cut..][j] == t;
      assert RankBefore(sorted[i], sorted[cut + j]);
    }
  }

  /** `rows.reduce((s, r) => s + amount(r), 0)` */
  method Total(rows: seq<ExploreTotal>, amount: ExploreTotal -> int) returns (sum: int)
    ensures sum == SumBy(rows, amount)
  {
    sum := 0;
    for i := 0 to |rows|
      invariant sum + SumBy(rows[i..], amount) == SumBy(rows, amount)
    {
      assert rows[i..][1..] == rows[i + 1..];
      sum := sum + amount(rows[i]);
    }
  }

  /** `rows.filter(p).map((r) => r.group)` */
  method NamesWhere(rows: seq<BreakdownRow>, p: BreakdownRow -> bool) returns (names: seq<string>)
    ensures names == Map(Filter(rows, p), NameOf)
  {
    names := [];
    CollectNone(rows, p, NameOf);
    hide Filter, Map;
    for i := 0 to |rows|
      invariant names == Map(Filter(rows[..i], p), NameOf)
    {
      CollectOneMore(rows, i, p, NameOf);
      if p(rows[i]) {
        names := names + [rows[i].group];
      }
    }
    assert rows[..|rows|] == rows;
  }

  /** Every row of the table is either named as unknown or given a band, and never both. */
  lemma {:induction false} NamesPartition(rows: seq<BreakdownRow>)
    ensures var unknown := Map(Filter(rows, IsBlank), NameOf);
      var ordered := Map(Filter(rows, NotIn(unknown)), NameOf);
      && (forall g :: g in unknown || g in ordered <==> exists row :: row in rows && row.group == g)
      && forall g :: g in unknown ==> g !in ordered
  {
    var unknown := Map(Filter(rows, IsBlank), NameOf);
    var ordered := Map(Filter(rows, NotIn(unknown)), NameOf);
    hide Filter, Map;
    forall g ensures (g in unknown || g in ordered <==> exists row :: row in rows && row.group == g)
      && (g in unknown ==> g !in ordered) {
      InMapped(rows, IsBlank, NameOf, g);
      InMapped(rows, NotIn(unknown), NameOf, g);
    }
  }

  /** The rows of the kept groups, and one row pushed for the rest. */
  method Tabulate(kept: seq<ExploreTotal>, tail: seq<ExploreTotal>) returns (breakdown: seq<BreakdownRow>)
    ensures breakdown == Tabulated(kept, tail)
  {
    hide SumBy;
    breakdown := [];
    for i := 0 to |kept|
      invariant |breakdown| == i && forall k :: 0 <= k < i ==> breakdown[k] == RowOf(kept[k])
    {
      breakdown := breakdown + [RowOf(kept[i])];
    }
    assert breakdown == Map(kept, RowOf);
    if |tail| > 0 {
      var tailSpans := Total(tail, SpansOf);
      var tailUnpriced := Total(tail, UnpricedOf);
      var tailTotal := Total(tail, TotalOf);
      SumOfNats(tail, SpansOf);
      SumOfNats(tail, UnpricedOf);
      breakdown := breakdown + [RowOf(ExploreTotal(OTHER_GROUP, tailTotal, tailSpans, tailUnpriced))];
    }
  }

  lemma {:induction false} TabulatedEnd(kept: seq<ExploreTotal>, tail: seq<ExploreTotal>)
    ensures tail == [] ==> |Tabulated(kept, tail)| == |kept|
    ensures tail != [] ==> |Tabulated(kept, tail)| == |kept| + 1 && Tabulated(kept, tail)[|kept|].group == OTHER_GROUP
  {
  }

  /** The groups are ranked in place, cut, and the rest pushed as one row. Whatever the cap, the head
      counts cover every group, kept and folded alike. */
  method CapGroups(totals: seq<ExploreTotal>, max: int) returns (r: CappedGroups)
    ensures r == Capped(totals, max)
    ensures r.spanCount == SumBy(totals, SpansOf) && r.unpricedSpanCount == SumBy(totals, UnpricedOf)
    ensures r.totalMicroUsd == if r.spanCount > 0 && r.unpricedSpanCount >= r.spanCount then None
      else Some(SumBy(totals, TotalOf))
    ensures |totals| <= Max(0, max) ==> r.truncatedGroups == 0 && |r.breakdown| == |totals|
    ensures |totals| > Max(0, max) ==> r.truncatedGroups == |totals| - Max(0, max) && |r.breakdown| == Max(0, max) + 1
                                       && r.breakdown[Max(0, max)].group == OTHER_GROUP
    ensures forall g ::
      g in r.unknownCostGroups || g in r.orderedGroups <==> exists row :: row in r.breakdown && row.group == g
    ensures forall g :: g in r.unknownCostGroups ==> g !in r.orderedGroups
  {
    hide Sort, SumBy, Filter, NotIn, Map, Tabulated;
    TabulatedEnd(Kept(totals, max), Tail(totals, max));
    KeptAndTail(totals, max);
    SumPermutation(Ranked(totals), totals, SpansOf);
    SumPermutation(Ranked(totals), totals, UnpricedOf);
    SumPermutation(Ranked(totals), totals, TotalOf);
    var ranking := ArrayOf(totals);
    SortInPlace(ranking, RankBefore);
    var sorted := ranking[..];
    var spanCount := Total(sorted, SpansOf);
    var unpricedSpanCount := Total(sorted, UnpricedOf);
    var pricedTotal := Total(sorted, TotalOf);
    var grandTotal := if spanCount > 0 && unpricedSpanCount >= spanCount then None else Some(pricedTotal);
    var cut := Min(Max(0, max), |sorted|);
    var kept, tail := sorted[..cut], sorted[cut..];
    var breakdown := Tabulate(kept, tail);
    var unknownCostGroups := NamesWhere(breakdown, IsBlank);
    var orderedGroups := NamesWhere(breakdown, NotIn(unknownCostGroups));
    NamesPartition(breakdown);
    r := CappedGroups(breakdown, set g | g in kept :: g.group, orderedGroups, |tail|, grandTotal, unknownCostGroups,
      spanCount, unpricedSpanCount);
  }

  // ---- Pivoting ----

  datatype CostCell = CostCell(day: int, group: string, costMicroUsd: int)

  datatype DayBars = DayBars(date: int, byGroup: map<string, int>)

  const CellCost: CostCell -> int := (r: CostCell) => r.costMicroUsd

  /** The bar a group's cost goes to, if any. */
  function BarOf(kept: set<string>, hasOther: bool, group: string): Option<string> {
    if group in kept then Some(group) else if hasOther then Some(OTHER_GROUP) else None
  }

  /** What the bars of one day are meant to hold: for each name, the sum of its rows. */
  function Bars(rows: seq<CostCell>, day: int, kept: set<string>, hasOther: bool): map<string, int> {
    if rows == [] then map[]
    else
      var before, r := Bars(rows[..|rows| - 1], day, kept, hasOther), rows[|rows| - 1];
      var key := BarOf(kept, hasOther, r.group);
      if r.day != day || key.None? then before
      else before[key.value := (if key.value in before then before[key.value] else 0) + r.costMicroUsd]
  }

  function Pivot(dayList: seq<int>, rows: seq<CostCell>, kept: set<string>, hasOther: bool): (days: seq<DayBars>)
    ensures |days| == |dayList|
    ensures forall i :: 0 <= i < |days| ==> days[i] == DayBars(dayList[i], Bars(rows, dayList[i], kept, hasOther))
  {
    seq(|dayList|, i requires 0 <= i < |dayList| => DayBars(dayList[i], Bars(rows, dayList[i], kept, hasOther)))
  }

  // ---- The chart, as a plain object holds it ----

  /** The properties every object inherits (section 20.1.3 of ECMA-262). Reading one of them off the
      empty `byGroup` finds the inherited member, so `?? 0` does not apply. */
  const INHERITED_NAMES: set<string> := {
    "constructor", "hasOwnProperty", "isPrototypeOf", "propertyIsEnumerable", "toLocaleString", "toString", "valueOf",
    "__proto__", "__defineGetter__", "__defineSetter__", "__lookupGetter__", "__lookupSetter__"}

  /** A bar is an amount, or the text an inherited member turns into when amounts are added to it. */
  datatype BarValue = Amount(microUsd: int) | Text(member: string, appended: seq<int>)

  datatype PlottedDay = PlottedDay(date: int, byGroup: map<string, BarValue>)

  /** `byGroup[key] = (byGroup[key] ?? 0) + cost`. Assigning text to `__proto__` leaves no property. */
  function AddToBar(bars: map<string, BarValue>, key: string, cost: int): map<string, BarValue> {
    if key in bars then
      bars[key := match bars[key]
        case Amount(soFar) => Amount(soFar + cost)
        case Text(member, appended) => Text(member, appended + [cost])]
    else if key == "__proto__" then bars
    else if key in INHERITED_NAMES then bars[key := Text(key, [cost])]
    else bars[key := Amount(cost)]
  }

  function PlottedBars(rows: seq<CostCell>, day: int, kept: set<string>, hasOther: bool): map<string, BarValue> {
    if rows == [] then map[]
    else
      var before, r := PlottedBars(rows[..|rows| - 1], day, kept, hasOther), rows[|rows| - 1];
      var key := BarOf(kept, hasOther, r.group);
      if r.day != day || key.None? then before else AddToBar(before, key.value, r.costMicroUsd)
  }

  function Plotted(dayList: seq<int>, rows: seq<CostCell>, kept: set<string>, hasOther: bool): (days: seq<PlottedDay>)
    ensures |days| == |dayList|
    ensures forall i :: 0 <= i < |days| ==>
      days[i] == PlottedDay(dayList[i], PlottedBars(rows, dayList[i], kept, hasOther))
  {
    seq(|dayList|, i requires 0 <= i < |dayList| =>
      PlottedDay(dayList[i], PlottedBars(rows, dayList[i], kept, hasOther)))
  }

  method PivotExploreDays(dayList: seq<int>, rows: seq<CostCell>, keptGroups: set<string>, hasOther: bool)
      returns (days: seq<PlottedDay>)
    ensures days == Plotted(dayList, rows, keptGroups, hasOther)
  {
    hide AddToBar;
    var byDay: map<int, PlottedDay> := map[];
    for i := 0 to |dayList|
      invariant forall j :: 0 <= j < i ==> dayList[j] in byDay
      invariant forall d :: d in byDay ==> byDay[d] == PlottedDay(d, map[])
    {
      byDay := byDay[dayList[i] := PlottedDay(dayList[i], map[])];
    }
    for i := 0 to |rows|
      invariant forall j :: 0 <= j < |dayList| ==> dayList[j] in byDay
      invariant forall d :: d in byDay ==> byDay[d] == PlottedDay(d, PlottedBars(rows[..i], d, keptGroups, hasOther))
    {
      var r := rows[i];
      assert rows[..i + 1][..i] == rows[..i];
      if r.day !in byDay {
        continue;
      }
      var point := byDay[r.day];
      var key := BarOf(keptGroups, hasOther, r.group);
      if key.None? {
        continue;
      }
      byDay := byDay[r.day := point.(byGroup := AddToBar(point.byGroup, key.value, r.costMicroUsd))];
    }
    assert rows[..|rows|] == rows;
    days := seq(|dayList|, i requires 0 <= i < |dayList| && dayList[i] in byDay => byDay[dayList[i]]);
  }

  // ---- The reads ----

  /** One span of the slice: what the WHERE clause lets through. */
  datatype CostSpan = CostSpan(day: int, group: string, cost: Option<int>)

  const IsPriced: CostSpan -> bool := (s: CostSpan) => s.cost.Some?
  const PricedCost: CostSpan -> int := (s: CostSpan) => if s.cost.Some? then s.cost.value else 0
  const SpanGroup: CostSpan -> string := (s: CostSpan) => s.group
  const One: CostSpan -> int := (s: CostSpan) => 1
  const Unpriced: CostSpan -> bool := (s: CostSpan) => s.cost.None?
  const AllSpans: CostSpan -> bool := (s: CostSpan) => true

  /** `sum(EstimatedCost)` over the spans that satisfy `p`: NULL when none of them is priced. */
  ghost function NullableSum(spans: seq<CostSpan>, p: CostSpan -> bool): Option<int> {
    if exists s :: s in spans && p(s) && IsPriced(s) then Some(SumWhere(spans, p, PricedCost)) else None
  }

  function InCell(day: int, group: string): CostSpan -> bool {
    (s: CostSpan) => s.day == day && s.group == group
  }

  function FoldedOn(day: int, kept: set<string>): CostSpan -> bool {
    (s: CostSpan) => s.day == day && s.group !in kept
  }

  function InGroupNamed(group: string): CostSpan -> bool {
    (s: CostSpan) => s.group == group
  }

  datatype KeptRow = KeptRow(day: int, group: string, cost: Option<int>)
  datatype OtherRow = OtherRow(day: int, cost: Option<int>)

  /** The per-group totals: one row per group of the slice. */
  ghost predicate AnswersTotals(spans: seq<CostSpan>, totals: seq<ExploreTotal>) {
    && Distinct(Map(totals, GroupOfTotal))
    && (forall s :: s in spans ==> exists r :: r in totals && r.group == s.group)
    && forall r :: r in totals ==>
         && r.totalMicroUsd == SumWhere(spans, InGroupNamed(r.group), PricedCost)
         && r.spanCount == SumWhere(spans, InGroupNamed(r.group), One)
         && r.unpricedSpanCount == SumWhere(spans, Both(InGroupNamed(r.group), Unpriced), One)
  }

  /** The per-day, per-kept-group sums. */
  ghost predicate AnswersKept(spans: seq<CostSpan>, kept: set<string>, rows: seq<KeptRow>) {
    && (forall i, j :: 0 <= i < j < |rows| ==> rows[i].day != rows[j].day || rows[i].group != rows[j].group)
    && (forall r :: r in rows ==> r.group in kept && r.cost == NullableSum(spans, InCell(r.day, r.group)))
    && (forall s :: s in spans && s.group in kept ==> exists r :: r in rows && r.day == s.day && r.group == s.group)
  }

  /** The per-day sums of everything else, asked for only when something was folded. */
  ghost predicate AnswersOther(spans: seq<CostSpan>, kept: set<string>, hasOther: bool, rows: seq<OtherRow>) {
    && (!hasOther ==> rows == [])
    && (forall i, j :: 0 <= i < j < |rows| ==> rows[i].day != rows[j].day)
    && (forall r :: r in rows ==> r.cost == NullableSum(spans, FoldedOn(r.day, kept)))
    && (hasOther ==> forall s :: s in spans && s.group !in kept ==> exists r :: r in rows && r.day == s.day)
  }

  const KeptPriced: KeptRow -> bool := (r: KeptRow) => r.cost.Some?
  const OtherPriced: OtherRow -> bool := (r: OtherRow) => r.cost.Some?
  const KeptCell: KeptRow -> CostCell := (r: KeptRow) =>
    CostCell(r.day, r.group, if r.cost.Some? then r.cost.value else 0)
  const OtherCell: OtherRow -> CostCell := (r: OtherRow) =>
    CostCell(r.day, OTHER_GROUP, if r.cost.Some? then r.cost.value else 0)
  const SpanCell: CostSpan -> CostCell := (s: CostSpan) => CostCell(s.day, s.group, PricedCost(s))

  /** The rows handed to the pivot: NULL sums are dropped, the tail arrives already summed. */
  function CostRows(kept: seq<KeptRow>, other: seq<OtherRow>): seq<CostCell> {
    Map(Filter(kept, KeptPriced), KeptCell) + Map(Filter(other, OtherPriced), OtherCell)
  }

  /** What pivoting the spans themselves, one by one, would be handed. */
  function RawRows(spans: seq<CostSpan>): seq<CostCell> {
    Map(Filter(spans, IsPriced), SpanCell)
  }
}
