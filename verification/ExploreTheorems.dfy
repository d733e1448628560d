/** Folding the tail before the pivot changes nothing: the chart, the table beneath it and the headline
    describe the same spans. */
module ExploreTheorems {
  import opened Money
  import opened Results
  import opened Sums
  import opened Sorting
  import opened Explore

  // ---- What the bars of a day are ----

  function OnBar(day: int, key: string, kept: set<string>, hasOther: bool): CostCell -> bool {
    (r: CostCell) => r.day == day && BarOf(kept, hasOther, r.group) == Some(key)
  }

  /** A bar exists exactly when some row goes to it, and then it is the sum of those rows. */
  lemma {:induction false} BarsAre(rows: seq<CostCell>, day: int, kept: set<string>, hasOther: bool, key: string)
    ensures var bars, p := Bars(rows, day, kept, hasOther), OnBar(day, key, kept, hasOther);
      && (key in bars <==> exists r :: r in rows && p(r))
      && (key in bars ==> bars[key] == SumWhere(rows, p, CellCost))
  {
    if rows != [] {
      var before, r := rows[..|rows| - 1], rows[|rows| - 1];
      BarsAre(before, day, kept, hasOther, key);
      OneMoreCell(before, r, OnBar(day, key, kept, hasOther));
      BarsOneMore(rows, day, kept, hasOther, key);
      assert rows == before + [r];
      hide Bars, OnBar, SumWhere;
    }
  }

  lemma {:induction false} BarsOneMore(rows: seq<CostCell>, day: int, kept: set<string>, hasOther: bool, key: string)
    requires rows != []
    ensures var before, r := Bars(rows[..|rows| - 1], day, kept, hasOther), rows[|rows| - 1];
      var bars := Bars(rows, day, kept, hasOther);
      if OnBar(day, key, kept, hasOther)(r) then
        key in bars && bars[key] == (if key in before then before[key] else 0) + r.costMicroUsd
      else (key in bars <==> key in before) && (key in bars ==> bars[key] == before[key])
  {
  }

  /** A last row counts if it qualifies; with no qualifying row before it the sum so far is nothing. */
  lemma {:induction false} OneMoreCell(before: seq<CostCell>, r: CostCell, p: CostCell -> bool)
    ensures SumWhere(before + [r], p, CellCost) == SumWhere(before, p, CellCost) + if p(r) then r.costMicroUsd else 0
    ensures (!exists x :: x in before && p(x)) ==> SumWhere(before, p, CellCost) == 0
    ensures (exists x :: x in before + [r] && p(x)) <==> (exists x :: x in before && p(x)) || p(r)
  {
    WhereConcat(before, [r], p, CellCost);
    if !exists x :: x in before && p(x) {
      WhereNone(before, p, CellCost);
    }
    assert (before + [r])[|before|] == r;
  }

  // ---- The spans behind a bar ----

  function SpanOnBar(day: int, key: string, kept: set<string>, hasOther: bool): CostSpan -> bool {
    (s: CostSpan) => s.day == day && BarOf(kept, hasOther, s.group) == Some(key)
  }

  lemma {:induction false} RawSum(spans: seq<CostSpan>, day: int, key: string, kept: set<string>, hasOther: bool)
    ensures SumWhere(RawRows(spans), OnBar(day, key, kept, hasOther), CellCost)
         == SumWhere(spans, SpanOnBar(day, key, kept, hasOther), PricedCost)
  {
    var p := SpanOnBar(day, key, kept, hasOther);
    WhereOfMap(Filter(spans, IsPriced), SpanCell, OnBar(day, key, kept, hasOther), CellCost, p, PricedCost);
    WhereOfFilter(spans, IsPriced, p, PricedCost);
    WhereAgree(spans, Both(IsPriced, p), p, PricedCost);
  }

  lemma {:induction false} RawBar(spans: seq<CostSpan>, day: int, key: string, kept: set<string>, hasOther: bool)
    ensures (exists r :: r in RawRows(spans) && OnBar(day, key, kept, hasOther)(r))
       <==> (exists s :: s in spans && SpanOnBar(day, key, kept, hasOther)(s) && IsPriced(s))
  {
    var priced, rows := Filter(spans, IsPriced), RawRows(spans);
    if exists r :: r in rows && OnBar(day, key, kept, hasOther)(r) {
      var i :| 0 <= i < |rows| && OnBar(day, key, kept, hasOther)(rows[i]);
      assert priced[i] in priced;
    }
    if exists s :: s in spans && SpanOnBar(day, key, kept, hasOther)(s) && IsPriced(s) {
      var s :| s in spans && SpanOnBar(day, key, kept, hasOther)(s) && IsPriced(s);
      var i :| 0 <= i < |priced| && priced[i] == s;
      assert rows[i] in rows && OnBar(day, key, kept, hasOther)(rows[i]);
    }
  }

  // ---- The rows the reads return ----

  function KeptOnBar(day: int, key: string): KeptRow -> bool {
    (r: KeptRow) => r.day == day && r.group == key
  }

  const KeptAmount: KeptRow -> int := (r: KeptRow) => if r.cost.Some? then r.cost.value else 0

  function OtherOnBar(day: int, key: string): OtherRow -> bool {
    (r: OtherRow) => r.day == day && key == OTHER_GROUP
  }

  const OtherAmount: OtherRow -> int := (r: OtherRow) => if r.cost.Some? then r.cost.value else 0

  lemma {:induction false} AmountIsSum(spans: seq<CostSpan>, p: CostSpan -> bool)
    ensures NullableSum(spans, p).None? ==> SumWhere(spans, p, PricedCost) == 0
    ensures NullableSum(spans, p).Some? ==> NullableSum(spans, p).value == SumWhere(spans, p, PricedCost)
  {
    if NullableSum(spans, p).None? {
      forall s | s in spans && p(s) ensures PricedCost(s) == 0 {
        assert !IsPriced(s);
      }
      WhereNone(spans, p, PricedCost);
    }
  }

  lemma {:induction false} KeptPart(spans: seq<CostSpan>, kept: set<string>, rows: seq<KeptRow>, day: int, key: string)
    requires AnswersKept(spans, kept, rows)
    ensures SumWhere(rows, KeptOnBar(day, key), KeptAmount)
      == if key in kept then SumWhere(spans, InCell(day, key), PricedCost) else 0
  {
    hide NullableSum;
    if exists i :: 0 <= i < |rows| && KeptOnBar(day, key)(rows[i]) {
      var i :| 0 <= i < |rows| && KeptOnBar(day, key)(rows[i]);
      assert rows[i] in rows;
      WhereOnly(rows, KeptOnBar(day, key), KeptAmount, i);
      AmountIsSum(spans, InCell(day, key));
    } else {
      forall r | r in rows ensures !KeptOnBar(day, key)(r) {
        var i :| 0 <= i < |rows| && rows[i] == r;
      }
      WhereNone(rows, KeptOnBar(day, key), KeptAmount);
      if key in kept {
        WhereNone(spans, InCell(day, key), PricedCost);
      }
    }
  }

  lemma {:induction false} OtherPart(spans: seq<CostSpan>, kept: set<string>, hasOther: bool, rows: seq<OtherRow>,
                                     day: int, key: string)
    requires AnswersOther(spans, kept, hasOther, rows)
    ensures SumWhere(rows, OtherOnBar(day, key), OtherAmount)
         == if hasOther && key == OTHER_GROUP then SumWhere(spans, FoldedOn(day, kept), PricedCost) else 0
  {
    hide NullableSum;
    if exists i :: 0 <= i < |rows| && OtherOnBar(day, key)(rows[i]) {
      var i :| 0 <= i < |rows| && OtherOnBar(day, key)(rows[i]);
      assert rows[i] in rows;
      WhereOnly(rows, OtherOnBar(day, key), OtherAmount, i);
      AmountIsSum(spans, FoldedOn(day, kept));
    } else {
      forall r | r in rows ensures !OtherOnBar(day, key)(r) {
        var i :| 0 <= i < |rows| && rows[i] == r;
      }
      WhereNone(rows, OtherOnBar(day, key), OtherAmount);
      if hasOther && key == OTHER_GROUP {
        assert forall r :: r in rows ==> r.day != day;
        WhereNone(spans, FoldedOn(day, kept), PricedCost);
      }
    }
  }

  /** Every span of a bar is either in the kept group of that name or, for the fold, in none. */
  lemma {:induction false} SpanParts(spans: seq<CostSpan>, day: int, key: string, kept: set<string>, hasOther: bool)
    ensures SumWhere(spans, SpanOnBar(day, key, kept, hasOther), PricedCost)
         == (if key in kept then SumWhere(spans, InCell(day, key), PricedCost) else 0)
          + (if hasOther && key == OTHER_GROUP then SumWhere(spans, FoldedOn(day, kept), PricedCost) else 0)
  {
    var p, cell, folded := SpanOnBar(day, key, kept, hasOther), InCell(day, key), FoldedOn(day, kept);
    if key in kept && hasOther && key == OTHER_GROUP {
      WhereSplit(spans, p, cell, folded, PricedCost);
    } else if key in kept {
      WhereCongruent(spans, p, cell, PricedCost, PricedCost);
    } else if hasOther && key == OTHER_GROUP {
      WhereCongruent(spans, p, folded, PricedCost, PricedCost);
    } else {
      WhereNone(spans, p, PricedCost);
    }
  }

  lemma {:induction false} AssembledSum(spans: seq<CostSpan>, kept: set<string>, hasOther: bool, keptRows: seq<KeptRow>,
                                        otherRows: seq<OtherRow>, day: int, key: string)
    requires AnswersKept(spans, kept, keptRows) && AnswersOther(spans, kept, hasOther, otherRows)
    ensures SumWhere(CostRows(keptRows, otherRows), OnBar(day, key, kept, hasOther), CellCost)
         == SumWhere(spans, SpanOnBar(day, key, kept, hasOther), PricedCost)
  {
    var p := OnBar(day, key, kept, hasOther);
    var pricedKept, pricedOther := Filter(keptRows, KeptPriced), Filter(otherRows, OtherPriced);
    WhereConcat(Map(pricedKept, KeptCell), Map(pricedOther, OtherCell), p, CellCost);
    WhereOfMap(pricedKept, KeptCell, p, CellCost, KeptOnBar(day, key), KeptAmount);
    WhereOfFilter(keptRows, KeptPriced, KeptOnBar(day, key), KeptAmount);
    WhereAgree(keptRows, Both(KeptPriced, KeptOnBar(day, key)), KeptOnBar(day, key), KeptAmount);
    WhereOfMap(pricedOther, OtherCell, p, CellCost, OtherOnBar(day, key), OtherAmount);
    WhereOfFilter(otherRows, OtherPriced, OtherOnBar(day, key), OtherAmount);
    WhereAgree(otherRows, Both(OtherPriced, OtherOnBar(day, key)), OtherOnBar(day, key), OtherAmount);
    hide AnswersKept, AnswersOther, SumWhere, Filter, Map;
    KeptPart(spans, kept, keptRows, day, key);
    OtherPart(spans, kept, hasOther, otherRows, day, key);
    SpanParts(spans, day, key, kept, hasOther);
  }

  lemma {:induction false} AssembledBar(spans: seq<CostSpan>, kept: set<string>, hasOther: bool, keptRows: seq<KeptRow>,
                                        otherRows: seq<OtherRow>, day: int, key: string)
    requires AnswersKept(spans, kept, keptRows) && AnswersOther(spans, kept, hasOther, otherRows)
    ensures (exists r :: r in CostRows(keptRows, otherRows) && OnBar(day, key, kept, hasOther)(r))
       <==> (exists s :: s in spans && SpanOnBar(day, key, kept, hasOther)(s) && IsPriced(s))
  {
    var rows := CostRows(keptRows, otherRows);
    if exists r :: r in rows && OnBar(day, key, kept, hasOther)(r) {
      var r :| r in rows && OnBar(day, key, kept, hasOther)(r);
      CellFromRow(keptRows, otherRows, r);
      RowHasSpan(spans, kept, hasOther, keptRows, otherRows, r);
    }
    if exists s :: s in spans && SpanOnBar(day, key, kept, hasOther)(s) && IsPriced(s) {
      var s :| s in spans && SpanOnBar(day, key, kept, hasOther)(s) && IsPriced(s);
      SpanHasRow(spans, kept, hasOther, keptRows, otherRows, s);
    }
  }

  lemma {:induction false} CellFromRow(keptRows: seq<KeptRow>, otherRows: seq<OtherRow>, c: CostCell)
    ensures c in CostRows(keptRows, otherRows) <==>
      || (exists r :: r in keptRows && KeptPriced(r) && KeptCell(r) == c)
      || (exists r :: r in otherRows && OtherPriced(r) && OtherCell(r) == c)
  {
    InMapped(keptRows, KeptPriced, KeptCell, c);
    InMapped(otherRows, OtherPriced, OtherCell, c);
  }

  lemma {:induction false} RowHasSpan(spans: seq<CostSpan>, kept: set<string>, hasOther: bool, keptRows: seq<KeptRow>,
                                      otherRows: seq<OtherRow>, c: CostCell)
    requires AnswersKept(spans, kept, keptRows) && AnswersOther(spans, kept, hasOther, otherRows)
    requires c in CostRows(keptRows, otherRows)
    ensures exists s ::
      s in spans && IsPriced(s) && s.day == c.day && BarOf(kept, hasOther, s.group) == BarOf(kept, hasOther, c.group)
  {
    CellFromRow(keptRows, otherRows, c);
    if exists r :: r in keptRows && KeptPriced(r) && KeptCell(r) == c {
      var r :| r in keptRows && KeptPriced(r) && KeptCell(r) == c;
      var s :| s in spans && InCell(r.day, r.group)(s) && IsPriced(s);
    } else {
      var r :| r in otherRows && OtherPriced(r) && OtherCell(r) == c;
      var s :| s in spans && FoldedOn(r.day, kept)(s) && IsPriced(s);
      assert otherRows != [];
    }
  }

  lemma {:induction false} SpanHasRow(spans: seq<CostSpan>, kept: set<string>, hasOther: bool, keptRows: seq<KeptRow>,
                                      otherRows: seq<OtherRow>, s: CostSpan)
    requires AnswersKept(spans, kept, keptRows) && AnswersOther(spans, kept, hasOther, otherRows)
    requires s in spans && IsPriced(s) && BarOf(kept, hasOther, s.group).Some?
    ensures exists c ::
      c in CostRows(keptRows, otherRows) && c.day == s.day
        && BarOf(kept, hasOther, c.group) == BarOf(kept, hasOther, s.group)
  {
    if s.group in kept {
      var r :| r in keptRows && r.day == s.day && r.group == s.group;
      assert InCell(r.day, r.group)(s);
      CellFromRow(keptRows, otherRows, KeptCell(r));
    } else {
      var r :| r in otherRows && r.day == s.day;
      assert FoldedOn(r.day, kept)(s);
      CellFromRow(keptRows, otherRows, OtherCell(r));
    }
  }

  /** Folding commutes with summing. For any spans, any kept groups and any day list, the chart drawn
      from the kept rows plus one summed row per day for the rest is the chart drawn from the spans. */
  lemma {:induction false} FoldCommutesWithSums(spans: seq<CostSpan>, kept: set<string>, hasOther: bool,
                                                keptRows: seq<KeptRow>, otherRows: seq<OtherRow>, dayList: seq<int>)
    requires AnswersKept(spans, kept, keptRows) && AnswersOther(spans, kept, hasOther, otherRows)
    ensures Pivot(dayList, CostRows(keptRows, otherRows), kept, hasOther)
      == Pivot(dayList, RawRows(spans), kept, hasOther)
  {
    hide AnswersKept, AnswersOther, CostRows, RawRows, OnBar, SpanOnBar, Bars, SumWhere;
    forall i | 0 <= i < |dayList|
      ensures Bars(CostRows(keptRows, otherRows), dayList[i], kept, hasOther)
        == Bars(RawRows(spans), dayList[i], kept, hasOther)
    {
      var folded, raw := Bars(CostRows(keptRows, otherRows), dayList[i], kept, hasOther),
        Bars(RawRows(spans), dayList[i], kept, hasOther);
      forall key ensures (key in folded <==> key in raw) && (key in folded ==> folded[key] == raw[key]) {
        SameBar(spans, kept, hasOther, keptRows, otherRows, dayList[i], key);
      }
    }
  }

  lemma {:induction false} SameBar(spans: seq<CostSpan>, kept: set<string>, hasOther: bool, keptRows: seq<KeptRow>,
                                   otherRows: seq<OtherRow>, day: int, key: string)
    requires AnswersKept(spans, kept, keptRows) && AnswersOther(spans, kept, hasOther, otherRows)
    ensures var folded, raw := Bars(CostRows(keptRows, otherRows), day, kept, hasOther),
      Bars(RawRows(spans), day, kept, hasOther);
      (key in folded <==> key in raw) && (key in folded ==> folded[key] == raw[key])
  {
    hide AnswersKept, AnswersOther, CostRows, RawRows, OnBar, SpanOnBar, Bars, SumWhere;
    BarsAre(CostRows(keptRows, otherRows), day, kept, hasOther, key);
    BarsAre(RawRows(spans), day, kept, hasOther, key);
    AssembledBar(spans, kept, hasOther, keptRows, otherRows, day, key);
    RawBar(spans, day, key, kept, hasOther);
    AssembledSum(spans, kept, hasOther, keptRows, otherRows, day, key);
    RawSum(spans, day, key, kept, hasOther);
  }

  // ---- What the cap keeps ----

  lemma {:induction false} UnknownComeFirst(s: seq<ExploreTotal>)
    requires SortedBy(s, RankBefore)
    ensures forall i :: 0 <= i < |s| ==> (CostIsUnknown(s[i]) <==> i < |Filter(s, CostIsUnknown)|)
  {
    if s != [] {
      if CostIsUnknown(s[0]) {
        UnknownComeFirst(s[1..]);
        assert forall i :: 1 <= i < |s| ==> s[i] == s[1..][i - 1];
      } else {
        assert forall i :: 0 < i < |s| ==> RankBefore(s[0], s[i]);
        if Filter(s, CostIsUnknown) != [] {
          assert Filter(s, CostIsUnknown)[0] in Filter(s, CostIsUnknown);
        }
      }
    }
  }

  lemma {:induction false} RankedUnknown(totals: seq<ExploreTotal>)
    ensures var sorted, count := Ranked(totals), |Filter(totals, CostIsUnknown)|;
      count <= |sorted| && forall i :: 0 <= i < |sorted| ==> (CostIsUnknown(sorted[i]) <==> i < count)
  {
    var sorted := Ranked(totals);
    SortPermutes(totals, RankBefore);
    SortSorts(totals, RankBefore);
    hide Sort;
    UnknownComeFirst(sorted);
    FilterPermutes(totals, sorted, CostIsUnknown);
    SameMembers(Filter(totals, CostIsUnknown), Filter(sorted, CostIsUnknown));
  }

  /** The tail of a list that starts with its unknown costs, cut anywhere. */
  lemma {:induction false} UnknownInTail(sorted: seq<ExploreTotal>, cut: nat, unknown: nat)
    requires cut <= |sorted| && unknown <= |sorted|
    requires forall i :: 0 <= i < |sorted| ==> (CostIsUnknown(sorted[i]) <==> i < unknown)
    ensures (exists r :: r in sorted[cut..] && CostIsUnknown(r)) <==> unknown > cut
    ensures (exists r :: r in sorted[cut..] && !CostIsUnknown(r)) <==> Max(unknown, cut) < |sorted|
  {
    hide CostIsUnknown;
    var tail := sorted[cut..];
    assert forall j :: 0 <= j < |tail| ==> (CostIsUnknown(tail[j]) <==> cut + j < unknown);
    if unknown > cut {
      assert tail[0] in tail;
    }
    if Max(unknown, cut) < |sorted| {
      assert tail[|tail| - 1] in tail;
    }
  }

  /** Unknown costs rank first, so one is folded exactly when there are more of them than the cap. The
      tail then holds priced groups beside it exactly when not every group is unknown, so the comment in
      the source, that a tail holding an unknown cost is unpriced throughout, fails in that range only. */
  lemma {:induction false} UnknownFoldedExactly(totals: seq<ExploreTotal>, max: int)
    ensures var tail, unknown, cap := Tail(totals, max), |Filter(totals, CostIsUnknown)|, Max(0, max);
      && ((exists r :: r in tail && CostIsUnknown(r)) <==> unknown > cap)
      && ((exists r :: r in tail && !CostIsUnknown(r)) <==> Max(unknown, cap) < |totals|)
      && (((exists r :: r in tail && CostIsUnknown(r)) ==> forall r :: r in tail ==> CostIsUnknown(r))
           <==> !(cap < unknown < |totals|))
  {
    hide Ranked, Filter, CostIsUnknown;
    RankedUnknown(totals);
    KeptAndTail(totals, max);
    UnknownInTail(Ranked(totals), Cut(totals, max), |Filter(totals, CostIsUnknown)|);
  }

  const ShownTotal: BreakdownRow -> int := (r: BreakdownRow) =>
    if r.totalMicroUsd.Some? then r.totalMicroUsd.value else 0
  const RowSpans: BreakdownRow -> int := (r: BreakdownRow) => r.spanCount
  const RowUnpriced: BreakdownRow -> int := (r: BreakdownRow) => r.unpricedSpanCount

  /** Totals a database can return: at most every span unpriced, and no money without a priced span. */
  ghost predicate Truthful(totals: seq<ExploreTotal>) {
    forall r :: r in totals ==>
      r.unpricedSpanCount <= r.spanCount && (r.unpricedSpanCount == r.spanCount ==> r.totalMicroUsd == 0)
  }

  lemma {:induction false} AllUnpriced(tail: seq<ExploreTotal>)
    requires Truthful(tail)
    ensures SumBy(tail, UnpricedOf) <= SumBy(tail, SpansOf)
    ensures SumBy(tail, UnpricedOf) == SumBy(tail, SpansOf) ==> SumBy(tail, TotalOf) == 0
  {
    if tail != [] {
      assert tail[0] in tail;
      assert forall r :: r in tail[1..] ==> r in tail;
      AllUnpriced(tail[1..]);
    }
  }

  lemma {:induction false} RowsSum(totals: seq<ExploreTotal>)
    requires Truthful(totals)
    ensures SumBy(Map(totals, RowOf), ShownTotal) == SumBy(totals, TotalOf)
  {
    forall i | 0 <= i < |totals| ensures ShownTotal(Map(totals, RowOf)[i]) == TotalOf(totals[i]) {
      assert totals[i] in totals;
    }
    SumPointwise(Map(totals, RowOf), totals, ShownTotal, TotalOf);
  }

  lemma {:induction false} FoldedShows(tail: seq<ExploreTotal>)
    requires Truthful(tail)
    ensures ShownTotal(RowOf(Folded(tail))) == SumBy(tail, TotalOf)
    ensures RowSpans(RowOf(Folded(tail))) == SumBy(tail, SpansOf)
      && RowUnpriced(RowOf(Folded(tail))) == SumBy(tail, UnpricedOf)
  {
    AllUnpriced(tail);
  }

  lemma {:induction false} PermutedTruthful(totals: seq<ExploreTotal>, max: int)
    requires Truthful(totals)
    ensures Truthful(Kept(totals, max)) && Truthful(Tail(totals, max))
    ensures forall r :: r in totals <==> r in Kept(totals, max) || r in Tail(totals, max)
  {
    hide Ranked, Kept, Tail;
    InKeptOrTail(totals, max);
  }

  /** Capping loses nothing: over the rows shown, span counts, unpriced counts and priced totals add
      up to those of all the groups, whatever the cap. */
  lemma {:induction false} CapPreserves(totals: seq<ExploreTotal>, max: int)
    requires Truthful(totals)
    ensures var c := Capped(totals, max);
      && SumBy(c.breakdown, RowSpans) == SumBy(totals, SpansOf) == c.spanCount
      && SumBy(c.breakdown, RowUnpriced) == SumBy(totals, UnpricedOf) == c.unpricedSpanCount
      && SumBy(c.breakdown, ShownTotal) == SumBy(totals, TotalOf)
      && c.totalMicroUsd == (if c.spanCount > 0 && c.unpricedSpanCount == c.spanCount then None
           else Some(SumBy(totals, TotalOf)))
      && c.truncatedGroups == |totals| - Min(Max(0, max), |totals|)
  {
    hide Ranked, Kept, Tail, Folded, Truthful, SumBy;
    var kept, tail := Kept(totals, max), Tail(totals, max);
    KeptAndTail(totals, max);
    PermutedTruthful(totals, max);
    AllUnpriced(totals);
    ShownSums(kept, tail);
    Splits(totals, Ranked(totals), kept, tail, SpansOf);
    Splits(totals, Ranked(totals), kept, tail, UnpricedOf);
    Splits(totals, Ranked(totals), kept, tail, TotalOf);
  }

  lemma {:induction false} ShownSums(kept: seq<ExploreTotal>, tail: seq<ExploreTotal>)
    requires Truthful(kept) && Truthful(tail)
    ensures var breakdown := Map(kept, RowOf) + if tail == [] then [] else [RowOf(Folded(tail))];
      && SumBy(breakdown, RowSpans) == SumBy(kept, SpansOf) + SumBy(tail, SpansOf)
      && SumBy(breakdown, RowUnpriced) == SumBy(kept, UnpricedOf) + SumBy(tail, UnpricedOf)
      && SumBy(breakdown, ShownTotal) == SumBy(kept, TotalOf) + SumBy(tail, TotalOf)
  {
    var rows, fold := Map(kept, RowOf), if tail == [] then [] else [RowOf(Folded(tail))];
    FoldedShows(tail);
    RowsSum(kept);
    SumPointwise(rows, kept, RowSpans, SpansOf);
    SumPointwise(rows, kept, RowUnpriced, UnpricedOf);
    hide Folded, Truthful;
    SumConcat(rows, fold, RowSpans);
    SumConcat(rows, fold, RowUnpriced);
    SumConcat(rows, fold, ShownTotal);
  }

  lemma {:induction false} Splits(totals: seq<ExploreTotal>, sorted: seq<ExploreTotal>, kept: seq<ExploreTotal>,
                                  tail: seq<ExploreTotal>, f: ExploreTotal -> int)
    requires multiset(sorted) == multiset(totals) && sorted == kept + tail
    ensures SumBy(totals, f) == SumBy(sorted, f) == SumBy(kept, f) + SumBy(tail, f)
  {
    SumPermutation(sorted, totals, f);
    SumConcat(kept, tail, f);
  }

  /** `a` belongs before `b`: a cost that is unknown, every span of it unpriced, precedes every known one,
      and of two known costs the larger precedes. */
  ghost predicate DearerOrUnknown(a: ExploreTotal, b: ExploreTotal) {
    var unknownA, unknownB := NothingPriced(a), NothingPriced(b);
    && (unknownB ==> unknownA)
    && (!unknownA && !unknownB ==> a.totalMicroUsd >= b.totalMicroUsd)
  }

  predicate NothingPriced(r: ExploreTotal) {
    r.spanCount > 0 && r.unpricedSpanCount >= r.spanCount
  }

  predicate ShowsTotal(row: BreakdownRow, r: ExploreTotal) {
    row == BreakdownRow(r.group, if NothingPriced(r) then None else Some(r.totalMicroUsd), r.spanCount,
                        r.unpricedSpanCount)
  }

  /** What the cap keeps, and in what order. The table shows the kept groups, dearest first after the
      unknown ones, then one row for all the rest; nothing folded belongs before anything kept. */
  lemma {:induction false} CapKeepsDearest(totals: seq<ExploreTotal>, max: int)
    ensures var c, kept, tail := Capped(totals, max), Kept(totals, max), Tail(totals, max);
      && multiset(kept + tail) == multiset(totals) && |kept| == Min(Max(0, max), |totals|)
      && |c.breakdown| == |kept| + (if tail == [] then 0 else 1)
      && (forall i :: 0 <= i < |kept| ==> ShowsTotal(c.breakdown[i], kept[i]))
      && (tail != [] ==>
           && ShowsTotal(c.breakdown[|kept|], Folded(tail)) && c.breakdown[|kept|].group == OTHER_GROUP
           && c.breakdown[|kept|].spanCount == SumBy(tail, SpansOf)
           && c.breakdown[|kept|].unpricedSpanCount == SumBy(tail, UnpricedOf)
           && Folded(tail).totalMicroUsd == SumBy(tail, TotalOf))
      && (forall i, j :: 0 <= i < j < |kept| ==> DearerOrUnknown(kept[i], kept[j]))
      && (forall k, t :: k in kept && t in tail ==> DearerOrUnknown(k, t))
      && (forall g :: g in c.keptGroups <==> exists k :: k in kept && k.group == g)
      && c.truncatedGroups == |tail|
  {
    KeptAndTail(totals, max);
    SortSorts(totals, RankBefore);
    hide Sort, SumBy, Filter, NotIn;
    var kept := Kept(totals, max);
    forall i, j | 0 <= i < j < |kept| ensures DearerOrUnknown(kept[i], kept[j]) {
      assert RankBefore(Ranked(totals)[i], Ranked(totals)[j]);
      RankIsDearer(Ranked(totals)[i], Ranked(totals)[j]);
    }
    forall k, t | k in kept && t in Tail(totals, max) ensures DearerOrUnknown(k, t) {
      RankIsDearer(k, t);
    }
  }

  lemma {:induction false} RankIsDearer(a: ExploreTotal, b: ExploreTotal)
    ensures RankBefore(a, b) ==> DearerOrUnknown(a, b)
  {
  }

  // ---- One slice, three readings ----

  lemma {:induction false} CountBound(spans: seq<CostSpan>, p: CostSpan -> bool)
    ensures 0 <= SumWhere(spans, Both(p, Unpriced), One) <= SumWhere(spans, p, One)
    ensures SumWhere(spans, Both(p, Unpriced), One) == SumWhere(spans, p, One)
      <==> forall s :: s in spans && p(s) ==> Unpriced(s)
  {
    if spans != [] {
      CountBound(spans[1..], p);
    }
  }

  lemma {:induction false} TotalsAreTruthful(spans: seq<CostSpan>, totals: seq<ExploreTotal>)
    requires AnswersTotals(spans, totals)
    ensures Truthful(totals)
    ensures forall r :: r in totals && (exists s :: s in spans && s.group == r.group && IsPriced(s)) ==>
      !CostIsUnknown(r) && r.spanCount > 0
  {
    forall r | r in totals
      ensures r.unpricedSpanCount <= r.spanCount && (r.unpricedSpanCount == r.spanCount ==> r.totalMicroUsd == 0)
      ensures (exists s :: s in spans && s.group == r.group && IsPriced(s)) ==> r.unpricedSpanCount < r.spanCount
    {
      CountBound(spans, InGroupNamed(r.group));
      if r.unpricedSpanCount == r.spanCount {
        WhereNone(spans, InGroupNamed(r.group), PricedCost);
      }
    }
  }

  lemma {:induction false} KeptNamesExactly(totals: seq<ExploreTotal>, max: int)
    ensures var c := Capped(totals, max);
      && (forall g :: g in c.keptGroups <==> exists r :: r in Kept(totals, max) && r.group == g)
      && (c.truncatedGroups > 0 <==> Tail(totals, max) != [])
  {
    hide Kept, Tail, Breakdown, Ranked;
  }

  /** Nothing is dropped: a group of the slice is either kept or folded. */
  lemma {:induction false} SliceIsCovered(spans: seq<CostSpan>, totals: seq<ExploreTotal>, max: int)
    requires AnswersTotals(spans, totals)
    ensures var c := Capped(totals, max); c.truncatedGroups == 0 ==> forall s :: s in spans ==> s.group in c.keptGroups
  {
    KeptNamesExactly(totals, max);
    KeptAndTail(totals, max);
    SameMembers(Ranked(totals), totals);
    hide Ranked, Kept, Tail, Capped;
    if Tail(totals, max) == [] {
      forall s | s in spans ensures exists r :: r in Kept(totals, max) && r.group == s.group {
        var r :| r in totals && r.group == s.group;
        assert r in Ranked(totals);
      }
    }
  }

  function OnDate(day: int): CostSpan -> bool {
    (s: CostSpan) => s.day == day
  }

  function BarHeight(bars: map<string, int>): string -> int {
    (key: string) => if key in bars then bars[key] else 0
  }

  /** The bar a span's cost goes to, as a plain name. */
  function BarName(kept: set<string>, hasOther: bool): CostSpan -> string {
    (s: CostSpan) => var bar := BarOf(kept, hasOther, s.group); if bar.Some? then bar.value else ""
  }

  function DrawnOn(day: int, kept: set<string>, hasOther: bool): CostSpan -> bool {
    (s: CostSpan) => s.day == day && IsPriced(s) && BarOf(kept, hasOther, s.group).Some?
  }

  /** What the page is meant to draw. */
  function ChartSums(totals: seq<ExploreTotal>, max: int, keptRows: seq<KeptRow>, otherRows: seq<OtherRow>,
                     dayList: seq<int>): seq<DayBars> {
    var c := Capped(totals, max);
    Pivot(dayList, CostRows(keptRows, otherRows), c.keptGroups, c.truncatedGroups > 0)
  }

  /** The three reads over one list of spans. */
  ghost predicate AnswersExplore(spans: seq<CostSpan>, totals: seq<ExploreTotal>, max: int, keptRows: seq<KeptRow>,
                                 otherRows: seq<OtherRow>) {
    var c := Capped(totals, max);
    && AnswersTotals(spans, totals)
    && AnswersKept(spans, c.keptGroups, keptRows)
    && AnswersOther(spans, c.keptGroups, c.truncatedGroups > 0, otherRows)
  }

  lemma {:induction false} RawHeight(spans: seq<CostSpan>, day: int, kept: set<string>, hasOther: bool, key: string)
    ensures BarHeight(Bars(RawRows(spans), day, kept, hasOther))(key)
      == SumWhere(spans, SpanOnBar(day, key, kept, hasOther), PricedCost)
  {
    hide Bars, RawRows;
    BarsAre(RawRows(spans), day, kept, hasOther, key);
    RawSum(spans, day, key, kept, hasOther);
    if key !in Bars(RawRows(spans), day, kept, hasOther) {
      WhereNone(RawRows(spans), OnBar(day, key, kept, hasOther), CellCost);
    }
  }

  lemma {:induction false} DaySumsAddUp(spans: seq<CostSpan>, totals: seq<ExploreTotal>, max: int,
                                        keptRows: seq<KeptRow>, otherRows: seq<OtherRow>, dayList: seq<int>, i: nat,
                                        keys: seq<string>)
    requires AnswersExplore(spans, totals, max, keptRows, otherRows) && i < |dayList|
    requires Distinct(keys) && forall k ::
      k in keys <==> k in ChartSums(totals, max, keptRows, otherRows, dayList)[i].byGroup
    ensures SumBy(keys, BarHeight(ChartSums(totals, max, keptRows, otherRows, dayList)[i].byGroup))
      == SumWhere(spans, OnDate(dayList[i]), PricedCost)
  {
    var c := Capped(totals, max);
    var kept, hasOther, day := c.keptGroups, c.truncatedGroups > 0, dayList[i];
    FoldCommutesWithSums(spans, kept, hasOther, keptRows, otherRows, dayList);
    SliceIsCovered(spans, totals, max);
    var bars := Bars(RawRows(spans), day, kept, hasOther);
    hide Capped, AnswersExplore, AnswersTotals, Bars, RawRows, CostRows, Pivot, Distinct;
    var drawn, name := DrawnOn(day, kept, hasOther), BarName(kept, hasOther);
    forall k | k in keys ensures BarHeight(bars)(k) == SumWhere(spans, InGroup(drawn, name, k), PricedCost) {
      RawHeight(spans, day, kept, hasOther, k);
      WhereAgree(spans, InGroup(drawn, name, k), SpanOnBar(day, k, kept, hasOther), PricedCost);
    }
    forall s | s in spans && drawn(s) ensures name(s) in keys {
      BarsAre(RawRows(spans), day, kept, hasOther, name(s));
      RawBar(spans, day, name(s), kept, hasOther);
      assert SpanOnBar(day, name(s), kept, hasOther)(s);
    }
    GroupTotal(spans, drawn, keys, name, PricedCost, BarHeight(bars));
    WhereAgree(spans, drawn, OnDate(day), PricedCost);
  }

  // ---- The chart against the table beneath it ----

  function PointHeight(key: string): DayBars -> int {
    (p: DayBars) => BarHeight(p.byGroup)(key)
  }

  function RowNamed(key: string): BreakdownRow -> bool {
    (r: BreakdownRow) => r.group == key
  }

  function TotalNamed(key: string): ExploreTotal -> bool {
    (r: ExploreTotal) => r.group == key
  }

  function InBand(key: string, kept: set<string>, hasOther: bool): CostSpan -> bool {
    (s: CostSpan) => BarOf(kept, hasOther, s.group) == Some(key)
  }

  function NotKept(kept: set<string>): CostSpan -> bool {
    (s: CostSpan) => s.group !in kept
  }

  const SpanDate: CostSpan -> int := (s: CostSpan) => s.day

  function HeightOn(spans: seq<CostSpan>, key: string, kept: set<string>, hasOther: bool): int -> int {
    (day: int) => SumWhere(spans, SpanOnBar(day, key, kept, hasOther), PricedCost)
  }

  lemma {:induction false} BandHeight(spans: seq<CostSpan>, key: string, kept: set<string>, hasOther: bool,
                                      dayList: seq<int>)
    requires Distinct(dayList) && forall s :: s in spans ==> s.day in dayList
    ensures SumBy(Pivot(dayList, RawRows(spans), kept, hasOther), PointHeight(key))
      == SumWhere(spans, InBand(key, kept, hasOther), PricedCost)
  {
    hide Bars, RawRows, BarHeight;
    var height := HeightOn(spans, key, kept, hasOther);
    forall i | 0 <= i < |dayList|
      ensures PointHeight(key)(Pivot(dayList, RawRows(spans), kept, hasOther)[i]) == height(dayList[i])
    {
      RawHeight(spans, dayList[i], kept, hasOther, key);
    }
    SumPointwise(Pivot(dayList, RawRows(spans), kept, hasOther), dayList, PointHeight(key), height);
    forall d | d in dayList
      ensures height(d) == SumWhere(spans, InGroup(InBand(key, kept, hasOther), SpanDate, d), PricedCost)
    {
      WhereCongruent(spans, SpanOnBar(d, key, kept, hasOther), InGroup(InBand(key, kept, hasOther), SpanDate, d),
                     PricedCost, PricedCost);
    }
    GroupTotal(spans, InBand(key, kept, hasOther), dayList, SpanDate, PricedCost, height);
  }

  lemma {:induction false} BandParts(spans: seq<CostSpan>, key: string, kept: set<string>, hasOther: bool)
    ensures SumWhere(spans, InBand(key, kept, hasOther), PricedCost)
         == (if key in kept then SumWhere(spans, InGroupNamed(key), PricedCost) else 0)
          + (if hasOther && key == OTHER_GROUP then SumWhere(spans, NotKept(kept), PricedCost) else 0)
  {
    var p, named, folded := InBand(key, kept, hasOther), InGroupNamed(key), NotKept(kept);
    if key in kept && hasOther && key == OTHER_GROUP {
      WhereSplit(spans, p, named, folded, PricedCost);
    } else if key in kept {
      WhereCongruent(spans, p, named, PricedCost, PricedCost);
    } else if hasOther && key == OTHER_GROUP {
      WhereCongruent(spans, p, folded, PricedCost, PricedCost);
    } else {
      WhereNone(spans, p, PricedCost);
    }
  }

  lemma {:induction false} RankedNamesDistinct(totals: seq<ExploreTotal>)
    requires Distinct(Map(totals, GroupOfTotal))
    ensures Distinct(Map(Ranked(totals), GroupOfTotal))
  {
    SortPermutes(totals, RankBefore);
    hide Sort;
    MapPermutes(totals, Ranked(totals), GroupOfTotal);
    DistinctPermutation(Map(totals, GroupOfTotal), Map(Ranked(totals), GroupOfTotal));
  }

  /** What the groups behind a list of total rows spent. */
  ghost predicate TotalsOf(spans: seq<CostSpan>, rows: seq<ExploreTotal>) {
    && Distinct(Map(rows, GroupOfTotal))
    && forall r :: r in rows ==> r.totalMicroUsd == SumWhere(spans, InGroupNamed(r.group), PricedCost)
  }

  lemma {:induction false} KeptAndTailNames(totals: seq<ExploreTotal>, max: int)
    requires Distinct(Map(totals, GroupOfTotal))
    ensures Distinct(Map(Kept(totals, max), GroupOfTotal)) && Distinct(Map(Tail(totals, max), GroupOfTotal))
    ensures forall k, t :: k in Kept(totals, max) && t in Tail(totals, max) ==> k.group != t.group
  {
    RankedNamesDistinct(totals);
    hide Ranked;
    var names, cut, kept, tail := Map(Ranked(totals), GroupOfTotal), Cut(totals, max), Kept(totals, max),
      Tail(totals, max);
    assert Map(kept, GroupOfTotal) == names[..cut] && Map(tail, GroupOfTotal) == names[cut..];
    forall k, t | k in kept && t in tail ensures k.group != t.group {
      var i :| 0 <= i < cut && kept[i] == k;
      var j :| 0 <= j < |tail| && tail[j] == t;
      assert names[i] != names[cut + j];
    }
  }

  lemma {:induction false} KeptAndTailAreTotals(spans: seq<CostSpan>, totals: seq<ExploreTotal>, max: int)
    requires AnswersTotals(spans, totals)
    ensures TotalsOf(spans, Kept(totals, max)) && TotalsOf(spans, Tail(totals, max))
    ensures forall k, t :: k in Kept(totals, max) && t in Tail(totals, max) ==> k.group != t.group
    ensures forall s :: s in spans ==>
      (exists r :: r in Kept(totals, max) && r.group == s.group)
        || (exists r :: r in Tail(totals, max) && r.group == s.group)
  {
    KeptAndTailNames(totals, max);
    InKeptOrTail(totals, max);
    hide Ranked, Kept, Tail, SumWhere, Map;
    forall s | s in spans
      ensures (exists r :: r in Kept(totals, max) && r.group == s.group)
        || (exists r :: r in Tail(totals, max) && r.group == s.group)
    {
      var r :| r in totals && r.group == s.group;
    }
  }

  lemma {:induction false} InKeptOrTail(totals: seq<ExploreTotal>, max: int)
    ensures forall r :: r in totals <==> r in Kept(totals, max) || r in Tail(totals, max)
  {
    KeptAndTail(totals, max);
    SameMembers(Ranked(totals), totals);
    hide Ranked, Kept, Tail;
  }

  lemma {:induction false} NamedTotal(spans: seq<CostSpan>, rows: seq<ExploreTotal>, key: string)
    requires TotalsOf(spans, rows)
    ensures SumWhere(rows, TotalNamed(key), TotalOf)
         == if exists r :: r in rows && r.group == key then SumWhere(spans, InGroupNamed(key), PricedCost) else 0
  {
    if exists r :: r in rows && r.group == key {
      var r :| r in rows && r.group == key;
      var i :| 0 <= i < |rows| && rows[i] == r;
      forall j | 0 <= j < |rows| ensures TotalNamed(key)(rows[j]) <==> j == i {
        assert Map(rows, GroupOfTotal)[i] == key && Map(rows, GroupOfTotal)[j] == rows[j].group;
      }
      WhereOnly(rows, TotalNamed(key), TotalOf, i);
    } else {
      WhereNone(rows, TotalNamed(key), TotalOf);
    }
  }

  function GroupSpend(spans: seq<CostSpan>): string -> int {
    (g: string) => SumWhere(spans, InGroupNamed(g), PricedCost)
  }

  lemma {:induction false} TailTotal(spans: seq<CostSpan>, tail: seq<ExploreTotal>, kept: set<string>)
    requires TotalsOf(spans, tail)
    requires forall s :: s in spans ==> (s.group !in kept <==> exists r :: r in tail && r.group == s.group)
    ensures SumBy(tail, TotalOf) == SumWhere(spans, NotKept(kept), PricedCost)
  {
    var names, group := Map(tail, GroupOfTotal), GroupSpend(spans);
    forall i | 0 <= i < |tail| ensures TotalOf(tail[i]) == group(names[i]) {
      assert tail[i] in tail;
    }
    SumPointwise(tail, names, TotalOf, group);
    forall g | g in names ensures group(g) == SumWhere(spans, InGroup(AllSpans, SpanGroup, g), PricedCost) {
      WhereCongruent(spans, InGroupNamed(g), InGroup(AllSpans, SpanGroup, g), PricedCost, PricedCost);
    }
    GroupSum(spans, AllSpans, names, SpanGroup, PricedCost, group);
    forall s | s in spans ensures InGroups(AllSpans, SpanGroup, names)(s) == NotKept(kept)(s) {
      if s.group in names {
        var i :| 0 <= i < |tail| && names[i] == s.group;
        assert tail[i] in tail;
      }
      if s.group !in kept {
        var r :| r in tail && r.group == s.group;
        var i :| 0 <= i < |tail| && tail[i] == r;
        assert names[i] == s.group;
      }
    }
    WhereCongruent(spans, InGroups(AllSpans, SpanGroup, names), NotKept(kept), PricedCost, PricedCost);
  }

  lemma {:induction false} TableBand(totals: seq<ExploreTotal>, max: int, key: string)
    requires Truthful(totals)
    ensures SumWhere(Breakdown(totals, max), RowNamed(key), ShownTotal)
         == SumWhere(Kept(totals, max), TotalNamed(key), TotalOf)
          + if Tail(totals, max) != [] && key == OTHER_GROUP then SumBy(Tail(totals, max), TotalOf) else 0
  {
    PermutedTruthful(totals, max);
    FoldedShows(Tail(totals, max));
    hide Kept, Tail, Ranked;
    var kept, tail := Kept(totals, max), Tail(totals, max);
    var fold := if tail == [] then [] else [RowOf(Folded(tail))];
    WhereConcat(Map(kept, RowOf), fold, RowNamed(key), ShownTotal);
    WhereOfMap(kept, RowOf, RowNamed(key), ShownTotal, TotalNamed(key), TotalOf);
  }

  lemma {:induction false} SumsMatchTable(spans: seq<CostSpan>, totals: seq<ExploreTotal>, max: int,
                                          keptRows: seq<KeptRow>, otherRows: seq<OtherRow>, dayList: seq<int>,
                                          key: string)
    requires AnswersExplore(spans, totals, max, keptRows, otherRows)
    requires Distinct(dayList) && forall s :: s in spans ==> s.day in dayList
    ensures SumBy(ChartSums(totals, max, keptRows, otherRows, dayList), PointHeight(key))
         == SumWhere(Capped(totals, max).breakdown, RowNamed(key), ShownTotal)
  {
    hide Capped, AnswersTotals, AnswersKept, AnswersOther, Kept, Tail, Breakdown, CostRows, RawRows, Pivot, TotalsOf,
         Truthful;
    var c := Capped(totals, max);
    var kept, hasOther := c.keptGroups, c.truncatedGroups > 0;
    FoldCommutesWithSums(spans, kept, hasOther, keptRows, otherRows, dayList);
    BandHeight(spans, key, kept, hasOther, dayList);
    BandParts(spans, key, kept, hasOther);
    TotalsAreTruthful(spans, totals);
    TableBand(totals, max, key);
    KeptNamesExactly(totals, max);
    KeptAndTailAreTotals(spans, totals, max);
    NamedTotal(spans, Kept(totals, max), key);
    TailTotal(spans, Tail(totals, max), kept);
    CappedBreakdown(totals, max);
  }

  lemma {:induction false} CappedBreakdown(totals: seq<ExploreTotal>, max: int)
    ensures Capped(totals, max).breakdown == Breakdown(totals, max)
  {
  }

  // ---- Bars and the legend ----

  lemma {:induction false} LegendIs(totals: seq<ExploreTotal>, max: int, r: BreakdownRow)
    requires r in Breakdown(totals, max)
    requires forall x :: x in Breakdown(totals, max) && x.group == r.group ==> x.totalMicroUsd.Some?
    ensures r.group in Capped(totals, max).orderedGroups
  {
    hide Breakdown;
    var breakdown := Breakdown(totals, max);
    var unknown := Map(Filter(breakdown, IsBlank), NameOf);
    InMapped(breakdown, IsBlank, NameOf, r.group);
    InMapped(breakdown, NotIn(unknown), NameOf, r.group);
  }

  lemma {:induction false} SpanHasBand(spans: seq<CostSpan>, totals: seq<ExploreTotal>, max: int, s: CostSpan,
                                       key: string)
    requires AnswersTotals(spans, totals) && s in spans && IsPriced(s)
    requires forall r :: r in totals ==> r.group != OTHER_GROUP
    requires BarOf(Capped(totals, max).keptGroups, Capped(totals, max).truncatedGroups > 0, s.group) == Some(key)
    ensures key in Capped(totals, max).orderedGroups
  {
    TotalsAreTruthful(spans, totals);
    PermutedTruthful(totals, max);
    KeptNamesExactly(totals, max);
    KeptAndTailAreTotals(spans, totals, max);
    hide Capped, Kept, Tail, Breakdown, SumWhere, TotalsOf, Truthful;
    if s.group in Capped(totals, max).keptGroups {
      var r :| r in Kept(totals, max) && r.group == s.group;
      KeptRowShown(totals, max, r);
      LegendIs(totals, max, RowOf(r));
    } else {
      var r :| r in Tail(totals, max) && r.group == s.group;
      FoldIsPriced(Tail(totals, max), r);
      FoldShown(totals, max);
      FoldName(Tail(totals, max));
      LegendIs(totals, max, RowOf(Folded(Tail(totals, max))));
    }
  }

  lemma {:induction false} OnlyRowOfName(kept: seq<ExploreTotal>, tail: seq<ExploreTotal>, r: ExploreTotal)
    requires Distinct(Map(kept, GroupOfTotal)) && r in kept && r.group != OTHER_GROUP
    ensures RowOf(r) in Tabulated(kept, tail)
    ensures forall x :: x in Tabulated(kept, tail) && x.group == r.group ==> x == RowOf(r)
  {
    FoldName(tail);
    hide Folded, CostIsUnknown;
    var rows, names := Tabulated(kept, tail), Map(kept, GroupOfTotal);
    var i :| 0 <= i < |kept| && kept[i] == r;
    assert rows[i] == RowOf(r) && names[i] == r.group;
    forall j | 0 <= j < |rows| && rows[j].group == r.group ensures rows[j] == RowOf(r) {
      assert j < |kept| ==> names[j] == rows[j].group;
    }
  }

  lemma {:induction false} KeptNamesDistinct(totals: seq<ExploreTotal>, max: int)
    requires Distinct(Map(totals, GroupOfTotal))
    ensures Distinct(Map(Kept(totals, max), GroupOfTotal))
  {
    RankedNamesDistinct(totals);
    hide Ranked;
    assert Map(Kept(totals, max), GroupOfTotal) == Map(Ranked(totals), GroupOfTotal)[..Cut(totals, max)];
  }

  lemma {:induction false} KeptRowShown(totals: seq<ExploreTotal>, max: int, r: ExploreTotal)
    requires Distinct(Map(totals, GroupOfTotal)) && r in Kept(totals, max) && !CostIsUnknown(r)
      && r.group != OTHER_GROUP
    ensures RowOf(r) in Breakdown(totals, max)
    ensures forall x :: x in Breakdown(totals, max) && x.group == r.group ==> x.totalMicroUsd.Some?
  {
    hide Ranked, Folded, Kept, Tail, Tabulated;
    KeptNamesDistinct(totals, max);
    OnlyRowOfName(Kept(totals, max), Tail(totals, max), r);
  }

  lemma {:induction false} FoldName(tail: seq<ExploreTotal>)
    ensures Folded(tail).group == OTHER_GROUP
  {
  }

  lemma {:induction false} FoldIsPriced(tail: seq<ExploreTotal>, r: ExploreTotal)
    requires Truthful(tail) && r in tail && !CostIsUnknown(r) && r.spanCount > 0
    ensures !CostIsUnknown(Folded(tail))
  {
    var k :| 0 <= k < |tail| && tail[k] == r;
    SumWithout(tail, k, SpansOf);
    SumWithout(tail, k, UnpricedOf);
    assert forall x :: x in Without(tail, k) ==> x in tail;
    AllUnpriced(Without(tail, k));
  }

  lemma {:induction false} FoldShown(totals: seq<ExploreTotal>, max: int)
    requires Tail(totals, max) != [] && !CostIsUnknown(Folded(Tail(totals, max)))
    requires forall r :: r in Kept(totals, max) ==> r.group != OTHER_GROUP
    ensures RowOf(Folded(Tail(totals, max))) in Breakdown(totals, max)
    ensures forall x :: x in Breakdown(totals, max) && x.group == OTHER_GROUP ==> x.totalMicroUsd.Some?
  {
    hide Ranked, Kept, Tail, Folded;
    FoldName(Tail(totals, max));
    var kept, breakdown := Kept(totals, max), Breakdown(totals, max);
    assert breakdown[|kept|] == RowOf(Folded(Tail(totals, max)));
    forall k | 0 <= k < |kept| ensures breakdown[k].group != OTHER_GROUP {
      assert kept[k] in kept;
    }
  }

  // ---- An unknown cost behind a confident figure ----

  lemma {:induction false} FoldUnknownExactly(tail: seq<ExploreTotal>)
    requires Truthful(tail) && tail != [] && forall r :: r in tail ==> r.spanCount > 0
    ensures CostIsUnknown(Folded(tail)) <==> forall r :: r in tail ==> CostIsUnknown(r)
  {
    if r :| r in tail && !CostIsUnknown(r) {
      FoldIsPriced(tail, r);
    } else {
      AllUnpriced(tail);
      SumCongruent(tail, UnpricedOf, SpansOf);
      var rest := tail[1..];
      assert tail[0] in tail;
      SumOfNats(rest, SpansOf);
    }
  }

  /** The reader's side of it: exactly in that range the fold shows a confident dollar figure over a
      tail that hides a group of unknown cost. */
  lemma {:induction false} FoldHidesUnknownExactly(totals: seq<ExploreTotal>, max: int)
    requires Truthful(totals) && forall r :: r in totals ==> r.spanCount > 0
    ensures var tail := Tail(totals, max);
      (exists r :: r in tail && CostIsUnknown(r)) && RowOf(Folded(tail)).totalMicroUsd.Some?
      <==> Max(0, max) < |Filter(totals, CostIsUnknown)| < |totals|
  {
    UnknownFoldedExactly(totals, max);
    PermutedTruthful(totals, max);
    hide Ranked, Kept, Tail, Folded, Filter, Truthful;
    if Tail(totals, max) != [] {
      FoldUnknownExactly(Tail(totals, max));
    }
  }

  /** Nothing on the page names a folded group: not the table, and not the list of unknown costs. */
  lemma {:induction false} FoldedIsUnnamed(totals: seq<ExploreTotal>, max: int, r: ExploreTotal)
    requires Distinct(Map(totals, GroupOfTotal)) && r in Tail(totals, max) && r.group != OTHER_GROUP
    ensures forall row :: row in Capped(totals, max).breakdown ==> row.group != r.group
    ensures r.group !in Capped(totals, max).unknownCostGroups
  {
    var breakdown := Breakdown(totals, max);
    KeptAndTailNames(totals, max);
    FoldName(Tail(totals, max));
    InMapped(breakdown, IsBlank, NameOf, r.group);
    hide Ranked, Kept, Tail, Folded, Filter;
    forall k | 0 <= k < |breakdown| ensures breakdown[k].group != r.group {
      assert k < |Kept(totals, max)| ==> Kept(totals, max)[k] in Kept(totals, max);
    }
  }

  function NameOfLength(n: nat): (name: string)
    ensures |name| == n && name != OTHER_GROUP
  {
    assert OTHER_GROUP[0] != 'u';
    seq(n, _ => 'u')
  }

  lemma {:induction false} FoldOfTwo(a: ExploreTotal, b: ExploreTotal)
    ensures Folded([a, b]) == ExploreTotal(OTHER_GROUP, a.totalMicroUsd + b.totalMicroUsd, a.spanCount + b.spanCount,
      a.unpricedSpanCount + b.unpricedSpanCount)
  {
    SumOfTwo(a, b, TotalOf);
    SumOfTwo(a, b, SpansOf);
    SumOfTwo(a, b, UnpricedOf);
  }

  /** Thirteen groups without a price, and one that spent five dollars. */
  const HIDING: seq<ExploreTotal> :=
    seq(14, i requires 0 <= i < 14 =>
      ExploreTotal(NameOfLength(i), if i < 13 then 0 else 5_000_000, 1, if i < 13 then 1 else 0))

  lemma {:induction false} HidingIsRanked()
    ensures |HIDING| == 14 && Ranked(HIDING) == HIDING
    ensures forall i :: 0 <= i < 14 ==> |HIDING[i].group| == i && HIDING[i].group != OTHER_GROUP
    ensures HIDING[12].(group := "") == ExploreTotal("", 0, 1, 1)
      && HIDING[13].(group := "") == ExploreTotal("", 5_000_000, 1, 0)
  {
    assert SortedBy(HIDING, RankBefore);
    SortOfSorted(HIDING, RankBefore);
    hide Sort;
  }

  /** Under the cap of the source, the thirteenth unknown is inside a fold that reads five dollars. */
  lemma {:induction false} FoldCanHideUnknown()
    ensures var c := Capped(HIDING, MAX_EXPLORE_GROUPS);
      && CostIsUnknown(HIDING[12]) && HIDING[12] in Tail(HIDING, MAX_EXPLORE_GROUPS)
      && |c.breakdown| == 13 && c.breakdown[12] == BreakdownRow(OTHER_GROUP, Some(5_000_000), 2, 1)
      && HIDING[12].group !in c.unknownCostGroups
  {
    HidingIsRanked();
    hide Ranked, HIDING;
    var names, tail := Map(HIDING, GroupOfTotal), Tail(HIDING, MAX_EXPLORE_GROUPS);
    assert forall i :: 0 <= i < 14 ==> |names[i]| == i;
    assert tail == [HIDING[12], HIDING[13]];
    assert tail[0] in tail;
    FoldOfTwo(HIDING[12], HIDING[13]);
    FoldedIsUnnamed(HIDING, MAX_EXPLORE_GROUPS, HIDING[12]);
    hide Capped;
    CappedBreakdown(HIDING, MAX_EXPLORE_GROUPS);
    assert Breakdown(HIDING, MAX_EXPLORE_GROUPS)[12] == RowOf(Folded(tail));
  }

  // ---- What the chart really holds ----

  function AmountsOf(bars: map<string, int>): map<string, BarValue> {
    map key | key in bars :: Amount(bars[key])
  }

  const AsPlotted: DayBars -> PlottedDay := (p: DayBars) => PlottedDay(p.date, AmountsOf(p.byGroup))

  /** No row of the day goes to a bar named like an inherited property. */
  ghost predicate PlainOn(rows: seq<CostCell>, day: int, kept: set<string>, hasOther: bool) {
    forall r :: r in rows && r.day == day && BarOf(kept, hasOther, r.group).Some? ==>
      BarOf(kept, hasOther, r.group).value !in INHERITED_NAMES
  }

  /** Bar by bar: an ordinary name holds its sum, an inherited one holds text, `__proto__` nothing. */
  ghost predicate HeldAs(plotted: map<string, BarValue>, bars: map<string, int>) {
    forall key ::
      && (key in plotted <==> key in bars && key != "__proto__")
      && (key in plotted ==> if key in INHERITED_NAMES then plotted[key].Text? else plotted[key] == Amount(bars[key]))
  }

  lemma {:induction false} AddingKeepsHeld(plotted: map<string, BarValue>, bars: map<string, int>, key: string,
                                           cost: int)
    requires HeldAs(plotted, bars)
    ensures HeldAs(AddToBar(plotted, key, cost), bars[key := (if key in bars then bars[key] else 0) + cost])
  {
    assert "__proto__" in INHERITED_NAMES;
    hide INHERITED_NAMES;
  }

  lemma {:induction false} NothingHeld()
    ensures HeldAs(map[], map[])
  {
  }

  lemma {:induction false} PlottedBarsAre(rows: seq<CostCell>, day: int, kept: set<string>, hasOther: bool)
    ensures HeldAs(PlottedBars(rows, day, kept, hasOther), Bars(rows, day, kept, hasOther))
  {
    hide HeldAs, AddToBar;
    NothingHeld();
    if rows != [] {
      var before, r := rows[..|rows| - 1], rows[|rows| - 1];
      PlottedBarsAre(before, day, kept, hasOther);
      var key := BarOf(kept, hasOther, r.group);
      if r.day == day && key.Some? {
        AddingKeepsHeld(PlottedBars(before, day, kept, hasOther), Bars(before, day, kept, hasOther), key.value,
                        r.costMicroUsd);
      }
    }
  }

  lemma {:induction false} PlainBarsExactly(rows: seq<CostCell>, day: int, kept: set<string>, hasOther: bool)
    ensures PlainOn(rows, day, kept, hasOther)
      <==> forall key :: key in Bars(rows, day, kept, hasOther) ==> key !in INHERITED_NAMES
  {
    hide Bars;
    var bars := Bars(rows, day, kept, hasOther);
    forall key ensures key in bars <==> exists r :: r in rows && OnBar(day, key, kept, hasOther)(r) {
      BarsAre(rows, day, kept, hasOther, key);
    }
    if r :|
      r in rows && r.day == day && BarOf(kept, hasOther, r.group).Some?
        && BarOf(kept, hasOther, r.group).value in INHERITED_NAMES {
      var key := BarOf(kept, hasOther, r.group).value;
      assert OnBar(day, key, kept, hasOther)(r);
    }
  }

  /** The bars of a day are the sums they are meant to be exactly when none of them is named like an
      inherited property. */
  lemma {:induction false} PlottedExactly(rows: seq<CostCell>, day: int, kept: set<string>, hasOther: bool)
    ensures PlottedBars(rows, day, kept, hasOther) == AmountsOf(Bars(rows, day, kept, hasOther))
      <==> PlainOn(rows, day, kept, hasOther)
  {
    PlottedBarsAre(rows, day, kept, hasOther);
    PlainBarsExactly(rows, day, kept, hasOther);
    assert "__proto__" in INHERITED_NAMES;
    hide PlottedBars, Bars, INHERITED_NAMES;
    var plotted, bars := PlottedBars(rows, day, kept, hasOther), Bars(rows, day, kept, hasOther);
    if key :| key in bars && key in INHERITED_NAMES {
      assert key in AmountsOf(bars) && AmountsOf(bars)[key].Amount?;
    } else {
      assert forall key :: key in bars ==> key != "__proto__";
    }
  }

  /** The whole chart: the pivot gives every day its sums exactly when no row of a listed day goes to a
      bar named like an inherited property. */
  lemma {:induction false} PivotHoldsExactly(dayList: seq<int>, rows: seq<CostCell>, kept: set<string>, hasOther: bool)
    ensures Plotted(dayList, rows, kept, hasOther) == Map(Pivot(dayList, rows, kept, hasOther), AsPlotted)
      <==> forall i :: 0 <= i < |dayList| ==> PlainOn(rows, dayList[i], kept, hasOther)
  {
    hide PlottedBars, Bars, PlainOn;
    var plotted, meant := Plotted(dayList, rows, kept, hasOther), Map(Pivot(dayList, rows, kept, hasOther), AsPlotted);
    forall i | 0 <= i < |dayList| ensures plotted[i] == meant[i] <==> PlainOn(rows, dayList[i], kept, hasOther) {
      PlottedExactly(rows, dayList[i], kept, hasOther);
    }
  }

  // ---- What a day adds up to ----

  /** Rows of the day that go to some bar. */
  function HasBar(day: int, kept: set<string>, hasOther: bool): CostCell -> bool {
    (r: CostCell) => r.day == day && BarOf(kept, hasOther, r.group).Some?
  }

  function RowBar(kept: set<string>, hasOther: bool): CostCell -> string {
    (r: CostCell) => var bar := BarOf(kept, hasOther, r.group); if bar.Some? then bar.value else ""
  }

  /** The height of a bar: text has none. */
  function AmountAt(bars: map<string, BarValue>): string -> int {
    (key: string) => if key in bars && bars[key].Amount? then bars[key].microUsd else 0
  }

  /** The bars of a day added up; one bar that is text makes the sum text. */
  function DayTotal(bars: map<string, BarValue>, keys: seq<string>): Option<int>
    requires forall k :: k in keys ==> k in bars
  {
    if exists k :: k in keys && bars[k].Text? then None else Some(SumBy(keys, AmountAt(bars)))
  }

  ghost predicate ListsBars(keys: seq<string>, bars: map<string, BarValue>) {
    Distinct(keys) && forall k :: k in keys <==> k in bars
  }

  lemma {:induction false} TextExactly(rows: seq<CostCell>, day: int, kept: set<string>, hasOther: bool)
    ensures var plotted := PlottedBars(rows, day, kept, hasOther);
      (exists k :: k in plotted && plotted[k].Text?) <==>
      exists r :: r in rows && HasBar(day, kept, hasOther)(r)
                  && RowBar(kept, hasOther)(r) in INHERITED_NAMES - {"__proto__"}
  {
    PlottedBarsAre(rows, day, kept, hasOther);
    hide PlottedBars, Bars, INHERITED_NAMES;
    var plotted := PlottedBars(rows, day, kept, hasOther);
    if k :| k in plotted && plotted[k].Text? {
      BarHasRow(rows, day, kept, hasOther, k);
    }
    if r :| r in rows && HasBar(day, kept, hasOther)(r)
            && RowBar(kept, hasOther)(r) in INHERITED_NAMES - {"__proto__"} {
      BarHasRow(rows, day, kept, hasOther, RowBar(kept, hasOther)(r));
    }
  }

  lemma {:induction false} BarHasRow(rows: seq<CostCell>, day: int, kept: set<string>, hasOther: bool, k: string)
    ensures k in Bars(rows, day, kept, hasOther) <==>
      exists r :: r in rows && HasBar(day, kept, hasOther)(r) && RowBar(kept, hasOther)(r) == k
  {
    hide Bars;
    BarsAre(rows, day, kept, hasOther, k);
    var on, has, bar := OnBar(day, k, kept, hasOther), HasBar(day, kept, hasOther), RowBar(kept, hasOther);
    assert forall r :: on(r) <==> has(r) && bar(r) == k;
  }

  /** What reaches the bars is all of the day but what went to `__proto__`. */
  lemma {:induction false} PlottedSum(rows: seq<CostCell>, day: int, kept: set<string>, hasOther: bool,
                                      keys: seq<string>)
    requires ListsBars(keys, PlottedBars(rows, day, kept, hasOther))
    requires forall k :: k in keys ==> PlottedBars(rows, day, kept, hasOther)[k].Amount?
    ensures SumBy(keys, AmountAt(PlottedBars(rows, day, kept, hasOther)))
         == SumWhere(rows, HasBar(day, kept, hasOther), CellCost)
          - SumWhere(rows, OnBar(day, "__proto__", kept, hasOther), CellCost)
  {
    PlottedBarsAre(rows, day, kept, hasOther);
    var plotted, p, name := PlottedBars(rows, day, kept, hasOther), HasBar(day, kept, hasOther), RowBar(kept, hasOther);
    hide PlottedBars, Bars, INHERITED_NAMES, SumBy, SumWhere;
    forall k | k in keys ensures AmountAt(plotted)(k) == SumWhere(rows, InGroup(p, name, k), CellCost) {
      BarsAre(rows, day, kept, hasOther, k);
      WhereCongruent(rows, OnBar(day, k, kept, hasOther), InGroup(p, name, k), CellCost, CellCost);
    }
    GroupSum(rows, p, keys, name, CellCost, AmountAt(plotted));
    forall r | r in rows
      ensures p(r) == (InGroups(p, name, keys)(r) || OnBar(day, "__proto__", kept, hasOther)(r))
      ensures !(InGroups(p, name, keys)(r) && OnBar(day, "__proto__", kept, hasOther)(r))
    {
      BarsAre(rows, day, kept, hasOther, name(r));
    }
    WhereSplit(rows, p, InGroups(p, name, keys), OnBar(day, "__proto__", kept, hasOther), CellCost);
  }

  /** When a day's bars sum to that day's spend, exactly: no row of the day goes to an inherited name
      other than `__proto__`, and those that go there add up to nothing. */
  lemma {:induction false} DayTotalExactly(rows: seq<CostCell>, day: int, kept: set<string>, hasOther: bool,
                                           keys: seq<string>)
    requires ListsBars(keys, PlottedBars(rows, day, kept, hasOther))
    ensures var total := DayTotal(PlottedBars(rows, day, kept, hasOther), keys);
      total == Some(SumWhere(rows, HasBar(day, kept, hasOther), CellCost)) <==>
      && (forall r :: r in rows && HasBar(day, kept, hasOther)(r) ==>
           RowBar(kept, hasOther)(r) !in INHERITED_NAMES - {"__proto__"})
      && SumWhere(rows, OnBar(day, "__proto__", kept, hasOther), CellCost) == 0
  {
    TextExactly(rows, day, kept, hasOther);
    hide PlottedBars, INHERITED_NAMES, SumBy, SumWhere, HasBar, RowBar, OnBar;
    var plotted := PlottedBars(rows, day, kept, hasOther);
    if !exists k :: k in plotted && plotted[k].Text? {
      PlottedSum(rows, day, kept, hasOther, keys);
    }
  }

  /** No span that counts belongs to a kept group named like an inherited property. */
  ghost predicate PlainBars(spans: seq<CostSpan>, kept: set<string>) {
    forall s :: s in spans && IsPriced(s) && s.group in kept ==> s.group !in INHERITED_NAMES
  }

  lemma {:induction false} PlainSpansPlainRows(spans: seq<CostSpan>, day: int, kept: set<string>, hasOther: bool)
    requires PlainBars(spans, kept)
    ensures PlainOn(RawRows(spans), day, kept, hasOther)
  {
    forall key | key in Bars(RawRows(spans), day, kept, hasOther) ensures key !in INHERITED_NAMES {
      BarsAre(RawRows(spans), day, kept, hasOther, key);
      RawBar(spans, day, key, kept, hasOther);
      assert OTHER_GROUP !in INHERITED_NAMES;
    }
    PlainBarsExactly(RawRows(spans), day, kept, hasOther);
  }

  /** Folding commutes with pivoting. For any spans, kept groups and day list, as long as no bar is named
      like an inherited property, the chart drawn from the kept rows plus one summed row per day for the
      rest is the chart drawn from the spans one by one, and both hold the sums they are meant to. */
  lemma {:induction false} FoldCommutesWithPivot(spans: seq<CostSpan>, kept: set<string>, hasOther: bool,
                                                 keptRows: seq<KeptRow>, otherRows: seq<OtherRow>, dayList: seq<int>)
    requires AnswersKept(spans, kept, keptRows) && AnswersOther(spans, kept, hasOther, otherRows)
    requires PlainBars(spans, kept)
    ensures Plotted(dayList, CostRows(keptRows, otherRows), kept, hasOther)
      == Plotted(dayList, RawRows(spans), kept, hasOther)
    ensures Plotted(dayList, RawRows(spans), kept, hasOther)
      == Map(Pivot(dayList, RawRows(spans), kept, hasOther), AsPlotted)
  {
    hide AnswersKept, AnswersOther, PlainBars, PlainOn, Bars, PlottedBars, CostRows, RawRows;
    var folded, raw := CostRows(keptRows, otherRows), RawRows(spans);
    FoldCommutesWithSums(spans, kept, hasOther, keptRows, otherRows, dayList);
    forall i | 0 <= i < |dayList|
      ensures PlainOn(raw, dayList[i], kept, hasOther) && PlainOn(folded, dayList[i], kept, hasOther)
    {
      PlainSpansPlainRows(spans, dayList[i], kept, hasOther);
      PlainBarsExactly(raw, dayList[i], kept, hasOther);
      PlainBarsExactly(folded, dayList[i], kept, hasOther);
      assert Pivot(dayList, folded, kept, hasOther)[i] == Pivot(dayList, raw, kept, hasOther)[i];
    }
    PivotHoldsExactly(dayList, raw, kept, hasOther);
    PivotHoldsExactly(dayList, folded, kept, hasOther);
  }

  /** What the page draws. */
  function Chart(totals: seq<ExploreTotal>, max: int, keptRows: seq<KeptRow>, otherRows: seq<OtherRow>,
                 dayList: seq<int>): seq<PlottedDay> {
    var c := Capped(totals, max);
    Plotted(dayList, CostRows(keptRows, otherRows), c.keptGroups, c.truncatedGroups > 0)
  }

  lemma {:induction false} ChartHolds(spans: seq<CostSpan>, totals: seq<ExploreTotal>, max: int, keptRows: seq<KeptRow>,
                                      otherRows: seq<OtherRow>, dayList: seq<int>)
    requires AnswersExplore(spans, totals, max, keptRows, otherRows) && PlainBars(spans, Capped(totals, max).keptGroups)
    ensures Chart(totals, max, keptRows, otherRows, dayList)
      == Map(ChartSums(totals, max, keptRows, otherRows, dayList), AsPlotted)
  {
    hide Capped, CostRows, RawRows, AnswersKept, AnswersOther, AnswersTotals, PlainBars, Pivot, Plotted;
    var c := Capped(totals, max);
    FoldCommutesWithPivot(spans, c.keptGroups, c.truncatedGroups > 0, keptRows, otherRows, dayList);
    FoldCommutesWithSums(spans, c.keptGroups, c.truncatedGroups > 0, keptRows, otherRows, dayList);
  }

  function AmountOnDay(key: string): PlottedDay -> int {
    (p: PlottedDay) => AmountAt(p.byGroup)(key)
  }

  lemma {:induction false} SameHeight(p: DayBars, key: string)
    ensures AmountOnDay(key)(AsPlotted(p)) == PointHeight(key)(p)
  {
    var plotted := AsPlotted(p);
    assert plotted.byGroup == AmountsOf(p.byGroup);
    assert AmountAt(plotted.byGroup)(key) == BarHeight(p.byGroup)(key);
    assert AmountOnDay(key)(plotted) == AmountAt(plotted.byGroup)(key);
  }

  /** Each day's bars add up to that day's priced cost, exactly. */
  lemma {:induction false} DayBarsAddUp(spans: seq<CostSpan>, totals: seq<ExploreTotal>, max: int,
                                        keptRows: seq<KeptRow>, otherRows: seq<OtherRow>, dayList: seq<int>, i: nat,
                                        keys: seq<string>)
    requires AnswersExplore(spans, totals, max, keptRows, otherRows) && PlainBars(spans, Capped(totals, max).keptGroups)
      && i < |dayList|
    requires Distinct(keys) && forall k ::
      k in keys <==> k in Chart(totals, max, keptRows, otherRows, dayList)[i].byGroup
    ensures SumBy(keys, AmountAt(Chart(totals, max, keptRows, otherRows, dayList)[i].byGroup))
      == SumWhere(spans, OnDate(dayList[i]), PricedCost)
  {
    hide Capped, CostRows, AnswersExplore, PlainBars, Distinct, SumBy, SumWhere;
    ChartHolds(spans, totals, max, keptRows, otherRows, dayList);
    DaySumsAddUp(spans, totals, max, keptRows, otherRows, dayList, i, keys);
    SumCongruent(keys, AmountAt(Chart(totals, max, keptRows, otherRows, dayList)[i].byGroup),
                 BarHeight(ChartSums(totals, max, keptRows, otherRows, dayList)[i].byGroup));
  }

  /** The chart agrees with the table. Over the window, the bars of any name add up to the rows of that
      name, the fold included, even if a real group happens to carry the fold's name. */
  lemma {:induction false} BarsMatchTable(spans: seq<CostSpan>, totals: seq<ExploreTotal>, max: int,
                                          keptRows: seq<KeptRow>, otherRows: seq<OtherRow>, dayList: seq<int>,
                                          key: string)
    requires AnswersExplore(spans, totals, max, keptRows, otherRows) && PlainBars(spans, Capped(totals, max).keptGroups)
    requires Distinct(dayList) && forall s :: s in spans ==> s.day in dayList
    ensures SumBy(Chart(totals, max, keptRows, otherRows, dayList), AmountOnDay(key))
         == SumWhere(Capped(totals, max).breakdown, RowNamed(key), ShownTotal)
  {
    hide Capped, CostRows, AnswersExplore, PlainBars, Distinct, SumBy, SumWhere;
    ChartHolds(spans, totals, max, keptRows, otherRows, dayList);
    SumsMatchTable(spans, totals, max, keptRows, otherRows, dayList, key);
    var chart, sums := Chart(totals, max, keptRows, otherRows, dayList),
      ChartSums(totals, max, keptRows, otherRows, dayList);
    forall i | 0 <= i < |sums| ensures AmountOnDay(key)(chart[i]) == PointHeight(key)(sums[i]) {
      SameHeight(sums[i], key);
    }
    SumPointwise(chart, sums, AmountOnDay(key), PointHeight(key));
  }

  /** No bar is drawn outside the legend: when no group of the slice is itself called like the fold,
      every bar of every day has its band. */
  lemma {:induction false} BarsHaveBands(spans: seq<CostSpan>, totals: seq<ExploreTotal>, max: int,
                                         keptRows: seq<KeptRow>, otherRows: seq<OtherRow>, dayList: seq<int>, i: nat,
                                         key: string)
    requires AnswersExplore(spans, totals, max, keptRows, otherRows) && i < |dayList|
    requires forall r :: r in totals ==> r.group != OTHER_GROUP
    requires key in Chart(totals, max, keptRows, otherRows, dayList)[i].byGroup
    ensures key in Capped(totals, max).orderedGroups
  {
    hide Capped, CostRows, RawRows, Bars, AnswersKept, AnswersOther, AnswersTotals;
    var c := Capped(totals, max);
    var kept, hasOther := c.keptGroups, c.truncatedGroups > 0;
    PlottedBarsAre(CostRows(keptRows, otherRows), dayList[i], kept, hasOther);
    FoldCommutesWithSums(spans, kept, hasOther, keptRows, otherRows, dayList);
    BarsAre(RawRows(spans), dayList[i], kept, hasOther, key);
    RawBar(spans, dayList[i], key, kept, hasOther);
    var s :| s in spans && SpanOnBar(dayList[i], key, kept, hasOther)(s) && IsPriced(s);
    SpanHasBand(spans, totals, max, s, key);
  }

  /** A tool named after an inherited property: its two dollars come out as text, not as a bar. */
  lemma {:induction false} PivotCanFail()
    ensures var rows := [CostCell(0, "search", 1_000_000), CostCell(0, "constructor", 2_000_000)];
      Plotted([0], rows, {"search", "constructor"}, false)
        == [PlottedDay(0, map["search" := Amount(1_000_000), "constructor" := Text("constructor", [2_000_000])])]
  {
    var kept := {"search", "constructor"};
    var rows := [CostCell(0, "search", 1_000_000), CostCell(0, "constructor", 2_000_000)];
    assert rows[..1][..0] == [] && rows[..1] == [rows[0]];
    assert PlottedBars(rows[..1], 0, kept, false) == map["search" := Amount(1_000_000)];
  }
}
