/** What the window line of the burn-down says about the days the forecast was fed. */
module WindowTheorems {
  import opened Results
  import opened Sums
  import opened Calendar
  import opened SettledSeries
  import opened Burndown
  import opened BurndownTheorems

  /** A settled day that is not before the first day the scope spent anything. */
  ghost function Feeds(days: seq<SettledDayPoint>): SettledDayPoint -> bool {
    (p: SettledDayPoint) => p.settled && exists q :: q in days && q.totalMicroUsd != 0 && q.date <= p.date
  }

  ghost predicate FirstSpend(day: Option<int>, days: seq<SettledDayPoint>) {
    && (day.None? <==> forall p :: p in days ==> p.totalMicroUsd == 0)
    && (day.Some? ==>
         && (exists p :: p in days && p.totalMicroUsd != 0 && p.date == day.value)
         && forall p :: p in days && p.totalMicroUsd != 0 ==> day.value <= p.date)
  }

  ghost predicate Covers(from: Option<int>, through: Option<int>, contiguous: bool, dates: seq<int>) {
    && (from.None? <==> dates == []) && (through.None? <==> dates == []) && (dates == [] ==> contiguous)
    && (dates != [] ==>
         && from.value in dates && through.value in dates
         && (forall d :: d in dates ==> from.value <= d <= through.value)
         && (contiguous <==> forall d :: from.value <= d <= through.value ==> d in dates))
  }

  ghost predicate Unsettled(dates: seq<int>, days: seq<SettledDayPoint>) {
    forall d :: d in dates <==> exists p :: p in days && p.inPeriod && !p.settled && p.date == d
  }

  /** The window line: the days fed, their ends, whether a day between them is missing, the settled days
      trimmed, and the unsettled days of the period with the share of the spend they carry. */
  ghost predicate WindowHolds(w: ForecastInputWindow, series: SettledSpendSeries) {
    var fed, observed := Filter(series.days, Feeds(series.days)), series.periodObserved.totalMicroUsd;
    && Covers(w.first, w.through, w.contiguous, Map(fed, DateOfPoint))
    && w.dayCount == |fed| && w.dayCount + w.trimmedLeadingDays == |Filter(series.days, IsSettled)|
    && FirstSpend(w.firstObservedDay, series.days)
    && Unsettled(w.excludedDays, series.days) && IsShare(w.excludedShareOfObserved, w.excludedMicroUsd, Some(observed))
    && w.rule == series.rule && w.waitsOn == series.connectorLayers && w.requiredDays == 14
  }

  lemma {:induction false} FirstObservedIs(days: seq<SettledDayPoint>)
    requires DatesIncrease(days)
    ensures FirstSpend(FirstObserved(days), days)
  {
    NothingBeforeFirst(days);
    FirstObservedIn(days);
  }

  lemma {:induction false} FirstObservedIn(days: seq<SettledDayPoint>)
    ensures var first := FirstObserved(days);
      first.Some? ==> exists p :: p in days && p.totalMicroUsd != 0 && p.date == first.value
  {
    if days != [] {
      if days[0].totalMicroUsd != 0 {
        assert days[0] in days;
      } else {
        FirstObservedIn(days[1..]);
      }
    }
  }

  /** What the engine is fed, said without the first observed day. */
  lemma {:induction false} FedIs(days: seq<SettledDayPoint>)
    requires DatesIncrease(days)
    ensures Fed(days) == Filter(days, Feeds(days))
  {
    FirstObservedIs(days);
    var first := FirstObserved(days);
    hide FirstObserved, DatesIncrease;
    if first.None? {
      FilterNone(days, Feeds(days));
    } else {
      FilterTwice(days, IsSettled, OnOrAfter(first.value));
      hide Filter;
      forall p | p in days ensures Both(IsSettled, OnOrAfter(first.value))(p) == Feeds(days)(p) {
        FeedsFrom(days, first.value, p);
      }
      FilterCongruent(days, Both(IsSettled, OnOrAfter(first.value)), Feeds(days));
    }
  }

  lemma {:induction false} FeedsFrom(days: seq<SettledDayPoint>, first: int, p: SettledDayPoint)
    requires FirstSpend(Some(first), days)
    ensures Feeds(days)(p) <==> p.settled && p.date >= first
  {
  }

  lemma {:induction false} SpanCovers(dates: seq<int>)
    requires StrictlyIncreasing(dates) && dates != []
    ensures var from, through := dates[0], dates[|dates| - 1];
      Covers(Some(from), Some(through), through - from + 1 == |dates|, dates)
  {
    var from, through := dates[0], dates[|dates| - 1];
    SpanOfIncreasing(dates);
    if forall d :: from <= d <= through ==> d in dates {
      NoGapMeansSpan(dates);
    }
    if through - from + 1 == |dates| {
      forall d | from <= d <= through ensures d in dates {
        assert dates[d - from] == d;
      }
    }
  }

  lemma {:induction false} ExcludedAre(days: seq<SettledDayPoint>)
    ensures Unsettled(Map(Filter(Filter(days, IsInPeriod), IsUnsettled), DateOfPoint), days)
  {
    var kept := Filter(Filter(days, IsInPeriod), IsUnsettled);
    assert forall p :: p in kept <==> p in days && p.inPeriod && !p.settled;
    hide Filter, Map;
    forall d ensures d in Map(kept, DateOfPoint) <==>
      exists p :: p in days && p.inPeriod && !p.settled && p.date == d
    {
      InMap(kept, DateOfPoint, d);
    }
  }

  lemma {:induction false} FedIsCovered(series: SettledSpendSeries)
    requires DatesIncrease(series.days)
    ensures var w := WindowOf(series);
      Covers(w.first, w.through, w.contiguous, Map(Fed(series.days), DateOfPoint))
  {
    var fed := Fed(series.days);
    FedIncreases(series);
    hide Fed, FirstObserved, Filter, Covers, DatesIncrease, Ratio;
    if fed != [] {
      DatesIncreaseIn(fed);
      SpanCovers(Map(fed, DateOfPoint));
    } else {
      NothingCovered();
    }
  }

  lemma {:induction false} WindowIs(series: SettledSpendSeries)
    requires WellBuilt(series)
    ensures WindowHolds(WindowOf(series), series)
  {
    var w := WindowOf(series);
    assert DatesIncrease(series.days);
    hide Fed, FirstObserved, Filter, Feeds, FirstSpend, Covers, DatesIncrease, WellBuilt, Ratio, Map, Unsettled,
         IsShare;
    FedIs(series.days);
    FirstObservedIs(series.days);
    FedIsCovered(series);
    ExcludedAre(series.days);
    RatioIsShare(w.excludedMicroUsd, series.periodObserved.totalMicroUsd);
  }

  lemma {:induction false} DatesIncreaseIn(days: seq<SettledDayPoint>)
    requires DatesIncrease(days)
    ensures StrictlyIncreasing(Map(days, DateOfPoint))
  {
  }

  lemma {:induction false} NothingCovered()
    ensures Covers(None, None, true, [])
  {
  }
}
