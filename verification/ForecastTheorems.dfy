/** What the forecasting engine promises (the header and doc comments of web/lib/forecast.ts). */
module ForecastTheorems {
  import opened Money
  import opened Results
  import opened Sums
  import opened Sorting
  import opened Calendar
  import opened Forecast

  // ---- When it answers, and when it refuses ----

  lemma {:induction false} ScanFindsNothing(days: seq<DailySpend>, seen: set<int>)
    ensures ScanDays(days, seen).None? <==>
      && (forall i :: 0 <= i < |days| ==> IsSafeInteger(days[i].microUsd) && days[i].date !in seen)
      && DistinctDates(days)
  {
    if days != [] {
      var d, rest := days[0], days[1..];
      ScanFindsNothing(rest, seen + {d.date});
      forall i | 0 <= i < |rest| ensures rest[i] == days[i + 1] {}
    }
  }

  /** It throws exactly on a period that ends before it starts, unsafe money, or a repeated day. */
  lemma {:induction false} ForecastAcceptsExactly(input: ForecastInput, sqrt: real -> real)
    ensures ForecastOf(input, sqrt).Ok? <==> AcceptableInput(input)
  {
    ScanFindsNothing(input.days, {});
    assert forall d :: d in input.days ==> exists i :: 0 <= i < |input.days| && input.days[i] == d;
  }

  lemma {:induction false} SettledCount(input: ForecastInput)
    ensures |Settled(input)| == |Filter(input.days, UpTo(input.asOf))|
  {
    SortPermutes(Filter(input.days, UpTo(input.asOf)), EarlierFirst);
  }

  /** Below fourteen settled days there is no projected figure of any kind, and the answer is
      `CannotProject`, never `Never`. At fourteen there is a projection, with a point for every day, and the
      headline is the last of them. Either way the days are counted and the budget is passed on. */
  lemma {:induction false} RefusesBelowHistoryFloor(input: ForecastInput, sqrt: real -> real)
    requires AcceptableInput(input)
    ensures ForecastOf(input, sqrt).Ok?
    ensures var f := ForecastOf(input, sqrt).value;
      && f.historyDays == |Filter(input.days, UpTo(input.asOf))|
      && (f.historyDays < MIN_HISTORY_DAYS ==>
           && f.status == InsufficientHistory && f.burndown == [] && f.breach.outcome == CannotProject
           && f.projectedMicroUsd.None? && f.lowMicroUsd.None? && f.highMicroUsd.None?
           && f.naiveRunRateMicroUsd.None? && f.dailyStdDevMicroUsd.None? && f.breach.date.None?
           && f.windowStart.None? && f.windowEnd.None? && f.weekdayMedianMicroUsd == seq(7, _ => None)
           && f.breach.dayIndex.None? && f.breach.earliestDate.None?)
      && (f.historyDays >= MIN_HISTORY_DAYS ==>
           && f.status == Projected && |f.burndown| == f.daysInPeriod && EndsOn(f, f.burndown[f.daysInPeriod - 1])
           && (f.breach.outcome == NoBudget <==> input.budgetMicroUsd.None?) && f.breach.outcome != CannotProject)
      && CountsDays(f, input) && f.breach.budgetMicroUsd == input.budgetMicroUsd
  {
    ForecastAcceptsExactly(input, sqrt);
    SettledCount(input);
    hide Settled, AcceptableInput, SampleStdDev, JsRound, Filter, BandHalfWidth, FirstReach, WeekdayMedian,
         NaiveRunRate, Basis.Point, AmountOn;
  }

  /** The headline figures are those of the last day. */
  ghost predicate EndsOn(f: SpendForecast, last: BurndownPoint) {
    && f.projectedMicroUsd == Some(last.projectedMicroUsd)
    && f.lowMicroUsd == Some(last.lowMicroUsd) && f.highMicroUsd == Some(last.highMicroUsd)
  }

  /** Days elapsed are those of the period up to the as-of day, and the rest remain. */
  ghost predicate CountsDays(f: SpendForecast, input: ForecastInput) {
    && f.daysInPeriod == input.periodEnd - input.periodStart + 1
    && f.daysElapsed == Max(0, Min(input.asOf, input.periodEnd) - input.periodStart + 1)
    && f.daysRemaining == f.daysInPeriod - f.daysElapsed
  }

  /** With enough history the answer is the projection drawn from the basis. */
  lemma {:induction false} Projects(input: ForecastInput, sqrt: real -> real)
    requires AcceptableInput(input) && |Settled(input)| >= MIN_HISTORY_DAYS
    ensures var basis := BasisOf(input, sqrt);
      basis.Valid() && ForecastOf(input, sqrt) == Ok(Projection(input, basis, |Settled(input)|, sqrt))
  {
    hide Settled, Projection, SampleStdDev, JsRound, Filter;
    ForecastAcceptsExactly(input, sqrt);
  }

  // ---- Cumulative spend ----

  function OnDay(day: int): DailySpend -> bool {
    (d: DailySpend) => d.date == day
  }

  lemma {:induction false} AmountOnIsSum(days: seq<DailySpend>, day: int)
    requires DistinctDates(days)
    ensures AmountOn(days, day) == SumWhere(days, OnDay(day), Amount)
  {
    if days != [] {
      var n := |days| - 1;
      assert days == days[..n] + [days[n]];
      WhereConcat(days[..n], [days[n]], OnDay(day), Amount);
      assert SumWhere([days[n]], OnDay(day), Amount) == if days[n].date == day then days[n].microUsd else 0;
      if days[n].date == day {
        WhereNone(days[..n], OnDay(day), Amount);
      } else {
        AmountOnIsSum(days[..n], day);
      }
    }
  }

  ghost predicate PeriodDays(b: Basis) {
    b.Valid() && DistinctDates(b.inPeriod) && forall d :: d in b.inPeriod ==> b.periodStart <= d.date <= b.asOf
  }

  lemma {:induction false} MeasuredCumulative(b: Basis, day: int)
    requires PeriodDays(b) && b.periodStart - 1 <= day <= Max(b.asOf, b.periodStart - 1)
    ensures b.Cumulative(day) == SumWhere(b.inPeriod, Within(b.periodStart, day), Amount)
    decreases day - b.periodStart
  {
    if day < b.periodStart {
      WhereNone(b.inPeriod, Within(b.periodStart, day), Amount);
    } else {
      MeasuredCumulative(b, day - 1);
      AmountOnIsSum(b.inPeriod, day);
      WhereSplit(b.inPeriod, Within(b.periodStart, day), Within(b.periodStart, day - 1), OnDay(day), Amount);
    }
  }

  /** Where the actual line stops, it has counted every settled day of the period once. */
  lemma {:induction false} ActualReachesSpendToDate(b: Basis)
    requires PeriodDays(b)
    ensures b.Cumulative(Max(b.asOf, b.periodStart - 1)) == b.SpendToDate()
  {
    var day := Max(b.asOf, b.periodStart - 1);
    MeasuredCumulative(b, day);
    WhereAll(b.inPeriod, Within(b.periodStart, day), Amount);
  }

  /** Sum of the expected spend of days `first` up to `last`. */
  function ExpectedTotal(window: seq<DailySpend>, first: int, last: int): int
    requires window != []
    decreases last - first
  {
    if last < first then 0 else ExpectedTotal(window, first, last - 1) + Expected(window, last)
  }

  lemma {:induction false} ProjectedCumulative(b: Basis, day: int)
    requires PeriodDays(b) && b.window != [] && day >= Max(b.asOf, b.periodStart - 1)
    ensures b.Cumulative(day) == b.SpendToDate() + ExpectedTotal(b.window, Max(b.asOf, b.periodStart - 1) + 1, day)
    decreases day - b.periodStart
  {
    hide Expected, AmountOn, SumBy, PeriodDays, Basis.SpendToDate;
    if day == Max(b.asOf, b.periodStart - 1) {
      ActualReachesSpendToDate(b);
    } else {
      ProjectedCumulative(b, day - 1);
    }
  }

  lemma {:induction false} SettledDistinct(input: ForecastInput)
    requires AcceptableInput(input)
    ensures DistinctDates(Settled(input))
    ensures forall d :: d in Settled(input) <==> d in input.days && d.date <= input.asOf
    ensures PeriodDaysOf(input, Settled(input))
  {
    var kept := Filter(input.days, UpTo(input.asOf));
    FilterDistinct(input.days, UpTo(input.asOf));
    SortPermutes(kept, EarlierFirst);
    SortMembers(kept, EarlierFirst);
    DatesDistinctAfter(kept, Settled(input));
    FilterDistinct(Settled(input), Within(input.periodStart, Min(input.asOf, input.periodEnd)));
  }

  ghost predicate PeriodDaysOf(input: ForecastInput, settled: seq<DailySpend>) {
    var inPeriod := Filter(settled, Within(input.periodStart, Min(input.asOf, input.periodEnd)));
    DistinctDates(inPeriod)
  }

  lemma {:induction false} FilterDistinct(days: seq<DailySpend>, p: DailySpend -> bool)
    requires DistinctDates(days)
    ensures DistinctDates(Filter(days, p))
  {
    if days != [] {
      FilterDistinct(days[1..], p);
      var rest, all := Filter(days[1..], p), Filter(days, p);
      forall i | 0 <= i < |rest| ensures rest[i].date != days[0].date {
        assert rest[i] in rest;
        var k :| 0 <= k < |days[1..]| && days[1..][k] == rest[i];
      }
    }
  }

  lemma {:induction false} DatesDistinctAfter(s: seq<DailySpend>, t: seq<DailySpend>)
    requires DistinctDates(s) && multiset(s) == multiset(t)
    ensures DistinctDates(t)
  {
    MapPermutes(s, t, DateOf);
    DistinctPermutation(Map(s, DateOf), Map(t, DateOf));
    forall i, j | 0 <= i < j < |t| ensures t[i].date != t[j].date {
      assert Map(t, DateOf)[i] != Map(t, DateOf)[j];
    }
  }

  lemma {:induction false} BasisHoldsPeriodDays(input: ForecastInput, sqrt: real -> real)
    requires AcceptableInput(input) && |Settled(input)| >= MIN_HISTORY_DAYS
    ensures PeriodDays(BasisOf(input, sqrt))
  {
    SettledDistinct(input);
  }

  /** Spend to date is the settled spend of the period's days through `asOf`, whatever the order the
      days came in. */
  lemma {:induction false} SpendToDateIs(input: ForecastInput, sqrt: real -> real)
    ensures BasisOf(input, sqrt).SpendToDate()
         == SumWhere(input.days, Within(input.periodStart, Min(input.asOf, input.periodEnd)), Amount)
  {
    var within := Within(input.periodStart, Min(input.asOf, input.periodEnd));
    var kept := Filter(input.days, UpTo(input.asOf));
    SortPermutes(kept, EarlierFirst);
    WhereIsFilter(Settled(input), within, Amount);
    WherePermutation(Settled(input), kept, within, Amount);
    WhereOfFilter(input.days, UpTo(input.asOf), within, Amount);
    WhereCongruent(input.days, Both(UpTo(input.asOf), within), within, Amount, Amount);
  }

  /** The headline: with enough history the projected total is spend to date plus, for every remaining
      day, the median of its weekday (the overall median for a weekday never seen). */
  lemma {:induction false} ProjectedTotalIs(input: ForecastInput, sqrt: real -> real)
    requires AcceptableInput(input) && |Settled(input)| >= MIN_HISTORY_DAYS
    ensures ForecastOf(input, sqrt).Ok?
    ensures var f, asOf := ForecastOf(input, sqrt).value, Min(input.asOf, input.periodEnd);
      f.projectedMicroUsd == Some(f.spendToDateMicroUsd
        + ExpectedTotal(Trailing(Settled(input)), Max(asOf, input.periodStart - 1) + 1, input.periodEnd))
  {
    hide Settled, BasisOf, ForecastOf, ExpectedTotal, NaiveRunRate, Breach, Basis.Cumulative, WeekdayMedian;
    Projects(input, sqrt);
    BasisHoldsPeriodDays(input, sqrt);
    BasisShape(input, sqrt);
    ProjectedCumulative(BasisOf(input, sqrt), input.periodEnd);
  }

  lemma {:induction false} BasisShape(input: ForecastInput, sqrt: real -> real)
    ensures var b := BasisOf(input, sqrt);
      && b.periodStart == input.periodStart && b.periodEnd == input.periodEnd
      && b.asOf == Min(input.asOf, input.periodEnd) && b.window == Trailing(Settled(input))
  {
  }

  // ---- The cone ----

  lemma {:induction false} HalfWidthGrows(stdDev: int, near: int, far: int, daysInPeriod: int, sqrt: real -> real)
    requires IsSquareRoot(sqrt) && near <= far
    ensures 0 <= BandHalfWidth(stdDev, near, daysInPeriod, sqrt) <= BandHalfWidth(stdDev, far, daysInPeriod, sqrt)
    ensures near <= 0 ==> BandHalfWidth(stdDev, near, daysInPeriod, sqrt) == 0
  {
    HalfWidthIsScaled(stdDev, near, daysInPeriod, sqrt);
    HalfWidthIsScaled(stdDev, far, daysInPeriod, sqrt);
    hide BandHalfWidth, ConeFactor, ScaledWidth;
    if stdDev > 0 && far > 0 {
      ConeFactorGrows(Max(near, 0), far, daysInPeriod, sqrt);
      ScaledWidthGrows(stdDev, ConeFactor(Max(near, 0), daysInPeriod, sqrt), ConeFactor(far, daysInPeriod, sqrt));
    }
  }

  function ScaledWidth(stdDev: int, factor: real): int {
    JsRound(CONFIDENCE_Z * stdDev as real * factor)
  }

  lemma {:induction false} ScaledWidthGrows(stdDev: int, near: real, far: real)
    requires stdDev > 0 && 0.0 <= near <= far
    ensures 0 <= ScaledWidth(stdDev, near) <= ScaledWidth(stdDev, far)
  {
    var scale := CONFIDENCE_Z * stdDev as real;
    ScaleMonotone(scale, near, far);
    RoundMonotone(scale * near, scale * far);
  }

  /** The part of the half-width that does not depend on the spread of daily spend. */
  function ConeFactor(daysAhead: nat, daysInPeriod: int, sqrt: real -> real): real {
    sqrt(daysAhead as real) *
      (1.0 + EARLY_PERIOD_INFLATION * (if daysInPeriod > 0 then daysAhead as real / daysInPeriod as real else 0.0))
  }

  lemma {:induction false} HalfWidthIsScaled(stdDev: int, daysAhead: int, daysInPeriod: int, sqrt: real -> real)
    ensures BandHalfWidth(stdDev, daysAhead, daysInPeriod, sqrt) ==
      if stdDev <= 0 || daysAhead <= 0 then 0
      else ScaledWidth(stdDev, ConeFactor(daysAhead, daysInPeriod, sqrt))
  {
    if stdDev > 0 && daysAhead > 0 {
      var z, r := CONFIDENCE_Z * stdDev as real, sqrt(daysAhead as real);
      var u := 1.0 + EARLY_PERIOD_INFLATION * (if daysInPeriod > 0 then daysAhead as real / daysInPeriod as real
        else 0.0);
      assert (z * r) * u == z * (r * u);
    }
  }

  lemma {:induction false} ScaleMonotone(k: real, x: real, y: real)
    requires 0.0 <= k && 0.0 <= x <= y
    ensures 0.0 <= k * x <= k * y
  {
  }

  lemma {:induction false} ProductMonotone(a: real, b: real, x: real, y: real)
    requires 0.0 <= a <= b && 0.0 <= x <= y
    ensures 0.0 <= a * x <= b * y
  {
    ScaleMonotone(a, x, y);
    ScaleMonotone(y, a, b);
    assert a * y == y * a && b * y == y * b;
  }

  lemma {:induction false} DivideMonotone(near: real, far: real, whole: real)
    requires 0.0 <= near <= far && whole > 0.0
    ensures 0.0 <= near / whole <= far / whole
  {
  }

  lemma {:induction false} ConeFactorGrows(near: nat, far: nat, daysInPeriod: int, sqrt: real -> real)
    requires IsSquareRoot(sqrt) && near <= far
    ensures 0.0 <= ConeFactor(near, daysInPeriod, sqrt) <= ConeFactor(far, daysInPeriod, sqrt)
  {
    SquareRootMonotone(sqrt, near as real, far as real);
    if daysInPeriod > 0 {
      DivideMonotone(near as real, far as real, daysInPeriod as real);
      ProductMonotone(sqrt(near as real), sqrt(far as real),
        1.0 + EARLY_PERIOD_INFLATION * (near as real / daysInPeriod as real),
        1.0 + EARLY_PERIOD_INFLATION * (far as real / daysInPeriod as real));
    } else {
      ProductMonotone(sqrt(near as real), sqrt(far as real), 1.0, 1.0);
    }
  }

  /** Every day: low, point and high in order; the low edge never below what was already spent unless
      the projection itself is; and the past has no band. */
  lemma {:induction false} ConeInOrder(b: Basis, day: int, sqrt: real -> real)
    requires b.Valid() && IsSquareRoot(sqrt)
    ensures var p := b.Point(day, sqrt);
      && Min(p.projectedMicroUsd, b.SpendToDate()) <= p.lowMicroUsd <= p.projectedMicroUsd <= p.highMicroUsd
      && (day <= b.asOf ==>
           p.lowMicroUsd == p.projectedMicroUsd == p.highMicroUsd && p.actualMicroUsd == Some(p.projectedMicroUsd))
      && (day > b.asOf ==> p.actualMicroUsd.None? && p.highMicroUsd - p.projectedMicroUsd == b.HalfWidth(day, sqrt))
  {
    HalfWidthGrows(b.stdDev, 0, Max(0, day - Max(b.asOf, b.periodStart - 1)), b.DaysInPeriod(), sqrt);
    HalfWidthGrows(b.stdDev, Min(0, day - Max(b.asOf, b.periodStart - 1)), 0, b.DaysInPeriod(), sqrt);
  }

  /** Inside one forecast the cone only widens: a later day is never banded more tightly. */
  lemma {:induction false} ConeWidensAhead(b: Basis, day: int, later: int, sqrt: real -> real)
    requires b.Valid() && IsSquareRoot(sqrt) && day <= later
    ensures 0 <= b.HalfWidth(day, sqrt) <= b.HalfWidth(later, sqrt)
  {
    var from := Max(b.asOf, b.periodStart - 1);
    HalfWidthGrows(b.stdDev, day - from, later - from, b.DaysInPeriod(), sqrt);
  }

  /** Across forecasts of one period with the same spread, the end-of-period band narrows as the as-of
      day advances, and closes with the period. */
  lemma {:induction false} ConeNarrowsAsPeriodCloses(b: Basis, c: Basis, sqrt: real -> real)
    requires b.Valid() && c.Valid() && IsSquareRoot(sqrt)
    requires b.periodStart == c.periodStart && b.periodEnd == c.periodEnd && b.stdDev == c.stdDev && b.asOf <= c.asOf
    ensures c.HalfWidth(c.periodEnd, sqrt) <= b.HalfWidth(b.periodEnd, sqrt)
    ensures c.asOf == c.periodEnd ==> c.HalfWidth(c.periodEnd, sqrt) == 0
  {
    HalfWidthGrows(b.stdDev, c.periodEnd - Max(c.asOf, c.periodStart - 1), b.periodEnd - Max(b.asOf, b.periodStart - 1),
                   b.DaysInPeriod(), sqrt);
  }

  // ---- When the cone opens, closes, and where it is widest ----

  lemma {:induction false} SquareRootBetween(sqrt: real -> real, x: real, lo: real, hi: real)
    requires IsSquareRoot(sqrt) && x >= 0.0 && 0.0 <= lo && 0.0 <= hi && lo * lo <= x <= hi * hi
    ensures lo <= sqrt(x) <= hi
  {
    if sqrt(x) < lo {
      SquareGrows(sqrt(x), lo);
    }
    if hi < sqrt(x) {
      SquareGrows(hi, sqrt(x));
    }
  }

  /** One day ahead, two and three, for a period of `n` days: the factors of the cone between bounds. */
  lemma {:induction false} FirstFactors(n: int, u: real, sqrt: real -> real)
    requires IsSquareRoot(sqrt) && n > 0 && u == EARLY_PERIOD_INFLATION / n as real
    ensures ConeFactor(1, n, sqrt) == 1.0 + u
    ensures 1.4142 * (1.0 + 2.0 * u) <= ConeFactor(2, n, sqrt) <= 1.4143 * (1.0 + 2.0 * u)
    ensures 1.73 * (1.0 + 3.0 * u) <= ConeFactor(3, n, sqrt)
  {
    SquareRootBetween(sqrt, 1.0, 1.0, 1.0);
    SquareRootBetween(sqrt, 2.0, 1.4142, 1.4143);
    SquareRootBetween(sqrt, 3.0, 1.73, 2.0);
    assert forall k: nat {:trigger k as real} :: EARLY_PERIOD_INFLATION * (k as real / n as real) == k as real * u;
    ProductMonotone(1.4142, sqrt(2.0), 1.0 + 2.0 * u, 1.0 + 2.0 * u);
    ProductMonotone(sqrt(2.0), 1.4143, 1.0 + 2.0 * u, 1.0 + 2.0 * u);
    ProductMonotone(1.73, sqrt(3.0), 1.0 + 3.0 * u, 1.0 + 3.0 * u);
  }

  /** The band is closed exactly when there is no spread or no day ahead: one day of any spread opens it. */
  lemma {:induction false} BandClosedExactly(stdDev: int, daysAhead: int, daysInPeriod: int, sqrt: real -> real)
    requires IsSquareRoot(sqrt) && daysInPeriod > 0
    ensures BandHalfWidth(stdDev, daysAhead, daysInPeriod, sqrt) == 0 <==> stdDev <= 0 || daysAhead <= 0
  {
    if stdDev > 0 && daysAhead > 0 {
      var u := EARLY_PERIOD_INFLATION / daysInPeriod as real;
      FirstFactors(daysInPeriod, u, sqrt);
      HalfWidthIsScaled(stdDev, 1, daysInPeriod, sqrt);
      HalfWidthGrows(stdDev, 1, daysAhead, daysInPeriod, sqrt);
      hide BandHalfWidth, ConeFactor;
      ProductMonotone(1.0, stdDev as real, 1.0, ConeFactor(1, daysInPeriod, sqrt));
    }
  }

  /** For a spread of one micro-dollar and a period of eight days, the first two days round alike. */
  predicate FirstTwoRoundAlike(stdDev: int, daysInPeriod: int) {
    stdDev == 1 && daysInPeriod == 8
  }

  lemma {:induction false} InflationBounds(n: int, u: real)
    requires n > 0 && u == EARLY_PERIOD_INFLATION / n as real
    ensures u > 0.0 && (n <= 7 ==> 7.0 * u >= EARLY_PERIOD_INFLATION) && (n >= 9 ==> 9.0 * u <= EARLY_PERIOD_INFLATION)
  {
    assert u * n as real == EARLY_PERIOD_INFLATION;
    if n <= 7 {
      ScaleMonotone(u, n as real, 7.0);
    } else if n >= 9 {
      ScaleMonotone(u, 9.0, n as real);
    }
  }

  /** From a spread of two on, two factors this far apart differ by at least one after rounding. */
  lemma {:induction false} WideSpreadSeparates(stdDev: int, near: real, far: real)
    requires stdDev >= 2 && near + 0.4142 <= far
    ensures ScaledWidth(stdDev, near) < ScaledWidth(stdDev, far)
  {
    var s, gap := stdDev as real, far - near;
    ProductMonotone(2.0, s, 0.4142, gap);
    assert s * far == s * near + s * gap;
    RoundMonotone(CONFIDENCE_Z * (s * near) + 1.0, CONFIDENCE_Z * (s * far));
  }

  lemma {:induction false} SecondDayWider(stdDev: int, daysInPeriod: int, sqrt: real -> real)
    requires IsSquareRoot(sqrt) && daysInPeriod > 0 && stdDev > 0
    ensures BandHalfWidth(stdDev, 1, daysInPeriod, sqrt) < BandHalfWidth(stdDev, 2, daysInPeriod, sqrt)
       <==> !FirstTwoRoundAlike(stdDev, daysInPeriod)
  {
    var u := EARLY_PERIOD_INFLATION / daysInPeriod as real;
    FirstFactors(daysInPeriod, u, sqrt);
    InflationBounds(daysInPeriod, u);
    HalfWidthIsScaled(stdDev, 1, daysInPeriod, sqrt);
    HalfWidthIsScaled(stdDev, 2, daysInPeriod, sqrt);
    hide BandHalfWidth, ConeFactor;
    if stdDev >= 2 {
      WideSpreadSeparates(stdDev, ConeFactor(1, daysInPeriod, sqrt), ConeFactor(2, daysInPeriod, sqrt));
    } else {
      LeastSpread(daysInPeriod, u, ConeFactor(2, daysInPeriod, sqrt));
    }
  }

  lemma {:induction false} LeastSpread(n: int, u: real, far: real)
    requires u > 0.0 && (n <= 7 ==> 7.0 * u >= EARLY_PERIOD_INFLATION) && (n >= 9 ==> 9.0 * u <= EARLY_PERIOD_INFLATION)
    requires n == 8 ==> u == EARLY_PERIOD_INFLATION / 8.0
    requires 1.4142 * (1.0 + 2.0 * u) <= far <= 1.4143 * (1.0 + 2.0 * u)
    ensures ScaledWidth(1, 1.0 + u) < ScaledWidth(1, far) <==> n != 8
  {
  }

  lemma {:induction false} ThirdDayWider(sqrt: real -> real)
    requires IsSquareRoot(sqrt)
    ensures BandHalfWidth(1, 1, 8, sqrt) < BandHalfWidth(1, 3, 8, sqrt)
  {
    FirstFactors(8, EARLY_PERIOD_INFLATION / 8.0, sqrt);
    HalfWidthIsScaled(1, 1, 8, sqrt);
    HalfWidthIsScaled(1, 3, 8, sqrt);
    hide BandHalfWidth, ConeFactor;
  }

  /** The first `remaining` days ahead are widest at the first of them exactly when there is no spread,
      at most one of them, or the two of them round alike. */
  lemma {:induction false} WidestFirstExactly(stdDev: int, remaining: nat, daysInPeriod: int, sqrt: real -> real)
    requires IsSquareRoot(sqrt) && daysInPeriod > 0
    ensures (forall k :: 1 <= k <= remaining ==>
               BandHalfWidth(stdDev, k, daysInPeriod, sqrt) <= BandHalfWidth(stdDev, 1, daysInPeriod, sqrt))
       <==> stdDev <= 0 || remaining <= 1 || (remaining == 2 && FirstTwoRoundAlike(stdDev, daysInPeriod))
  {
    if stdDev > 0 && remaining >= 2 {
      SecondDayWider(stdDev, daysInPeriod, sqrt);
      if remaining >= 3 && FirstTwoRoundAlike(stdDev, daysInPeriod) {
        ThirdDayWider(sqrt);
      }
    }
    hide IsSquareRoot;
    assert stdDev <= 0 ==> forall k :: BandHalfWidth(stdDev, k, daysInPeriod, sqrt) == 0;
  }

  // ---- The cone of the burn-down a caller receives ----

  function BandOf(p: BurndownPoint): int {
    p.highMicroUsd - p.projectedMicroUsd
  }

  /** As far below the projection as the high edge is above it, but not below what is already spent,
      unless the projection itself is. */
  function LowEdge(p: BurndownPoint, spent: int): int {
    if p.projectedMicroUsd <= spent then p.projectedMicroUsd else Max(p.projectedMicroUsd - BandOf(p), spent)
  }

  /** Days of the period after the last settled one. */
  function Remaining(b: Basis): int {
    b.periodEnd - Max(b.asOf, b.periodStart - 1)
  }

  /** What the forecast shows of the basis it was drawn from. */
  lemma {:induction false} ForecastShows(input: ForecastInput, sqrt: real -> real)
    requires AcceptableInput(input) && |Settled(input)| >= MIN_HISTORY_DAYS
    ensures ForecastOf(input, sqrt).Ok?
    ensures var f, b := ForecastOf(input, sqrt).value, BasisOf(input, sqrt);
      && b.Valid() && PeriodDays(b) && b.periodStart == input.periodStart && b.periodEnd == input.periodEnd
           && b.asOf == Min(input.asOf, input.periodEnd)
      && f.burndown == b.Burndown(sqrt) && f.spendToDateMicroUsd == b.SpendToDate()
           && f.dailyStdDevMicroUsd == Some(b.stdDev)
      && f.daysInPeriod == b.DaysInPeriod() && f.daysRemaining == Remaining(b)
           && f.daysElapsed == b.DaysInPeriod() - Remaining(b)
  {
    hide Settled, BasisOf, ForecastOf, NaiveRunRate, Breach, WeekdayMedian, Basis.Burndown, PeriodDays;
    Projects(input, sqrt);
    BasisShape(input, sqrt);
    BasisHoldsPeriodDays(input, sqrt);
  }

  /** Every day of the burn-down a caller receives: consecutive dates; low, point and high in order, the
      low edge never below what was already spent unless the projection itself is; an actual exactly for
      the elapsed days, which have no band; and the last actual is spend to date. */
  lemma {:induction false} BurndownIsOrdered(input: ForecastInput, sqrt: real -> real)
    requires AcceptableInput(input) && |Settled(input)| >= MIN_HISTORY_DAYS && IsSquareRoot(sqrt)
    ensures ForecastOf(input, sqrt).Ok?
    ensures var f := ForecastOf(input, sqrt).value; forall k :: 0 <= k < |f.burndown| ==>
      var p := f.burndown[k];
      && p.date == input.periodStart + k
      && Min(p.projectedMicroUsd, f.spendToDateMicroUsd) <= p.lowMicroUsd <= p.projectedMicroUsd <= p.highMicroUsd
      && (p.actualMicroUsd.Some? <==> k < f.daysElapsed)
      && (k < f.daysElapsed ==> p.lowMicroUsd == p.highMicroUsd == p.projectedMicroUsd == p.actualMicroUsd.value)
      && (k >= f.daysElapsed ==> p.lowMicroUsd == LowEdge(p, f.spendToDateMicroUsd))
    ensures var f := ForecastOf(input, sqrt).value; 0 < f.daysElapsed ==>
      f.daysElapsed <= |f.burndown| && f.burndown[f.daysElapsed - 1].actualMicroUsd == Some(f.spendToDateMicroUsd)
  {
    hide Settled, BasisOf, ForecastOf, AcceptableInput, Basis.Cumulative, BandHalfWidth, PeriodDays;
    ForecastShows(input, sqrt);
    var b := BasisOf(input, sqrt);
    forall k | 0 <= k < b.DaysInPeriod()
      ensures var p := b.Burndown(sqrt)[k];
        && p.date == input.periodStart + k
        && Min(p.projectedMicroUsd, b.SpendToDate()) <= p.lowMicroUsd <= p.projectedMicroUsd <= p.highMicroUsd
        && (p.actualMicroUsd.Some? <==> input.periodStart + k <= b.asOf)
        && (p.actualMicroUsd.Some? ==>
             p.lowMicroUsd == p.highMicroUsd == p.projectedMicroUsd == p.actualMicroUsd.value
               == b.Cumulative(input.periodStart + k))
        && (p.actualMicroUsd.None? ==> p.lowMicroUsd == LowEdge(p, b.SpendToDate()))
    {
      ConeInOrder(b, input.periodStart + k, sqrt);
    }
    ActualReachesSpendToDate(b);
  }

  /** The days of the burn-down still to come are banded no wider than the first of them. */
  ghost predicate WidestJustAfterSettled(f: SpendForecast) {
    forall k :: 0 <= f.daysElapsed <= k < |f.burndown| ==> BandOf(f.burndown[k]) <= BandOf(f.burndown[f.daysElapsed])
  }

  /** The band closes to nothing on the last date. */
  ghost predicate ClosesOnLastDate(f: SpendForecast) {
    f.burndown != [] && BandOf(f.burndown[|f.burndown| - 1]) == 0
  }

  lemma {:induction false} BandAhead(b: Basis, k: nat, sqrt: real -> real)
    requires b.Valid() && k < b.DaysInPeriod()
    ensures BandOf(b.Burndown(sqrt)[k]) == BandHalfWidth(b.stdDev, Max(0, k - (b.DaysInPeriod() - Remaining(b)) + 1),
                                                         b.DaysInPeriod(), sqrt)
  {
    hide Basis.Cumulative;
  }

  /** When the chart's tooltip tells the truth. Within one forecast the band closes on the last date
      exactly when there is no spread or nothing left to project, and it is widest just after the last
      settled day exactly when there is no spread or at most one day left (for a spread of one
      micro-dollar in a period of eight days, two). Both hold only where there is no band at all. */
  lemma {:induction false} TooltipHoldsExactly(input: ForecastInput, sqrt: real -> real)
    requires AcceptableInput(input) && |Settled(input)| >= MIN_HISTORY_DAYS && IsSquareRoot(sqrt)
    ensures ForecastOf(input, sqrt).Ok? && ForecastOf(input, sqrt).value.dailyStdDevMicroUsd.Some?
    ensures var f := ForecastOf(input, sqrt).value; var spread := f.dailyStdDevMicroUsd.value;
      && (ClosesOnLastDate(f) <==> spread <= 0 || f.daysRemaining == 0)
      && (WidestJustAfterSettled(f) <==>
           spread <= 0 || f.daysRemaining <= 1 || (f.daysRemaining == 2 && FirstTwoRoundAlike(spread, f.daysInPeriod)))
  {
    hide Settled, BasisOf, ForecastOf, AcceptableInput, Basis.Burndown, BandHalfWidth, BandOf, PeriodDays;
    ForecastShows(input, sqrt);
    TooltipOfBasis(BasisOf(input, sqrt), ForecastOf(input, sqrt).value, sqrt);
  }

  lemma {:induction false} TooltipOfBasis(b: Basis, f: SpendForecast, sqrt: real -> real)
    requires b.Valid() && IsSquareRoot(sqrt) && f.burndown == b.Burndown(sqrt)
    requires f.daysRemaining == Remaining(b) && f.daysElapsed == b.DaysInPeriod() - Remaining(b)
    ensures ClosesOnLastDate(f) <==> b.stdDev <= 0 || f.daysRemaining == 0
    ensures WidestJustAfterSettled(f) <==>
      b.stdDev <= 0 || f.daysRemaining <= 1 || (f.daysRemaining == 2 && FirstTwoRoundAlike(b.stdDev, b.DaysInPeriod()))
  {
    hide BandHalfWidth, BandOf, Basis.Point;
    var n, first := b.DaysInPeriod(), f.daysElapsed;
    BandAhead(b, n - 1, sqrt);
    BandClosedExactly(b.stdDev, Remaining(b), n, sqrt);
    WidestFirstExactly(b.stdDev, Remaining(b), n, sqrt);
    forall k | first <= k < n
      ensures BandOf(f.burndown[k]) == BandHalfWidth(b.stdDev, k - first + 1, n, sqrt)
    {
      BandAhead(b, k, sqrt);
    }
    if WidestJustAfterSettled(f) {
      forall k | 1 <= k <= Remaining(b)
        ensures BandHalfWidth(b.stdDev, k, n, sqrt) <= BandHalfWidth(b.stdDev, 1, n, sqrt)
      {
        assert BandOf(f.burndown[first + k - 1]) <= BandOf(f.burndown[first]);
      }
    }
  }

  // ---- A forecast the tooltip misdescribes ----

  /** Sixteen settled days: one of 17 dollars, then 1 dollar a day. */
  const UNEVEN_DAYS: seq<DailySpend> := [DailySpend(0, 17_000_000)] + seq(15, i => DailySpend(i + 1, 1_000_000))

  /** A thirty-day period, six days of it settled. */
  const UNEVEN_INPUT := ForecastInput(UNEVEN_DAYS, 10, 39, 15, None)

  lemma {:induction false} IntsOfConstant(values: seq<int>, c: int)
    requires forall i :: 0 <= i < |values| ==> values[i] == c
    ensures Ints(values) == c * |values|
  {
    if values != [] {
      IntsOfConstant(values[1..], c);
    }
  }

  lemma {:induction false} DeviationsOfConstant(values: seq<int>, c: int, mean: real)
    requires forall i :: 0 <= i < |values| ==> values[i] == c
    ensures SquaredDeviations(values, mean) == |values| as real * ((c as real - mean) * (c as real - mean))
  {
    if values != [] {
      DeviationsOfConstant(values[1..], c, mean);
    }
  }

  lemma {:induction false} UnevenSettled()
    ensures AcceptableInput(UNEVEN_INPUT) && Settled(UNEVEN_INPUT) == UNEVEN_DAYS
  {
    var days := UNEVEN_DAYS;
    assert forall i :: 0 <= i < |days| ==> days[i].date == i && IsSafeInteger(days[i].microUsd);
    FilterAll(days, UpTo(15));
    SortOfSorted(days, EarlierFirst);
  }

  lemma {:induction false} UnevenSpread(sqrt: real -> real)
    requires IsSquareRoot(sqrt)
    ensures BasisOf(UNEVEN_INPUT, sqrt).stdDev == 4_000_000
  {
    UnevenSettled();
    hide Settled, IsSquareRoot;
    var values := Map(UNEVEN_DAYS, Amount);
    var tail := values[1..];
    assert |values| == 16 && values[0] == 17_000_000 && forall i :: 0 <= i < |tail| ==> tail[i] == 1_000_000;
    IntsOfConstant(tail, 1_000_000);
    assert Ints(values) == 32_000_000;
    DeviationsOfConstant(tail, 1_000_000, 2_000_000.0);
    assert SquaredDeviations(values, 2_000_000.0) == 240_000_000_000_000.0;
    SquareRootBetween(sqrt, 16_000_000_000_000.0, 4_000_000.0, 4_000_000.0);
  }

  /** Its last day is banded more widely than its first remaining one, and neither band is closed. */
  lemma {:induction false} TooltipCanFail(sqrt: real -> real)
    requires IsSquareRoot(sqrt)
    ensures ForecastOf(UNEVEN_INPUT, sqrt).Ok?
    ensures var f := ForecastOf(UNEVEN_INPUT, sqrt).value;
      && f.daysElapsed == 6 && |f.burndown| == 30
      && 0 < BandOf(f.burndown[6]) < BandOf(f.burndown[29])
  {
    hide BasisOf, ForecastOf, Settled, Basis.Point, BandHalfWidth, AcceptableInput, PeriodDays;
    UnevenSettled();
    ForecastShows(UNEVEN_INPUT, sqrt);
    UnevenSpread(sqrt);
    var b := BasisOf(UNEVEN_INPUT, sqrt);
    BandAhead(b, 6, sqrt);
    BandAhead(b, 29, sqrt);
    BandClosedExactly(b.stdDev, 1, 30, sqrt);
    SecondDayWider(b.stdDev, 30, sqrt);
    HalfWidthGrows(b.stdDev, 0, 1, 30, sqrt);
    HalfWidthGrows(b.stdDev, 2, 24, 30, sqrt);
  }

  // ---- The breach ----

  ghost predicate CrossesFirst(points: seq<BurndownPoint>, edge: BurndownPoint -> int, budget: int, k: int) {
    0 <= k < |points| && edge(points[k]) >= budget && forall j :: 0 <= j < k ==> edge(points[j]) < budget
  }

  /** What `breachFrom` owes its caller. `date` is the first day the projection reaches the budget and
      `Never` means no day does. The earliest date along the high edge is the first day of the whole
      period it reaches the budget, although the walk stops at the breach; it exists whenever the
      breach does, and is no later. */
  ghost predicate BreachContract(points: seq<BurndownPoint>, budget: int, periodStart: int, r: BreachForecast) {
    && (r.outcome == Breaches || r.outcome == Never) && r.budgetMicroUsd == Some(budget)
    && (r.outcome == Never <==> r.date.None?)
    && (r.date.None? <==> forall p :: p in points ==> p.projectedMicroUsd < budget)
    && (r.date.Some? ==> CrossesFirst(points, ProjectedEdge, budget, r.date.value - periodStart))
    && (r.date.Some? ==> r.dayIndex == Some(r.date.value - periodStart + 1))
    && (r.date.Some? ==> r.earliestDate.Some? && r.earliestDate.value <= r.date.value)
    && (r.earliestDate.None? <==> forall p :: p in points ==> p.highMicroUsd < budget)
    && (r.earliestDate.Some? ==> CrossesFirst(points, HighEdge, budget, r.earliestDate.value - periodStart))
  }

  lemma {:induction false} BreachIsFirstCrossing(input: ForecastInput, budget: int, sqrt: real -> real)
    requires AcceptableInput(input) && |Settled(input)| >= MIN_HISTORY_DAYS && IsSquareRoot(sqrt)
    requires input.budgetMicroUsd == Some(budget)
    ensures ForecastOf(input, sqrt).Ok?
    ensures var f := ForecastOf(input, sqrt).value; BreachContract(f.burndown, budget, input.periodStart, f.breach)
  {
    hide Settled, BasisOf, ForecastOf, NaiveRunRate, Breach, Basis.Cumulative, WeekdayMedian, BreachContract,
         Basis.Point;
    Projects(input, sqrt);
    BasisShape(input, sqrt);
    var b := BasisOf(input, sqrt);
    var points := b.Burndown(sqrt);
    forall k | 0 <= k < |points|
      ensures points[k].date == input.periodStart + k && points[k].projectedMicroUsd <= points[k].highMicroUsd
    {
      ConeInOrder(b, input.periodStart + k, sqrt);
      PointDate(b, input.periodStart + k, sqrt);
    }
    WalkFindsBoth(points, budget, input.periodStart);
  }

  lemma {:induction false} PointDate(b: Basis, day: int, sqrt: real -> real)
    requires b.Valid()
    ensures b.Point(day, sqrt).date == day
  {
  }

  lemma {:induction false} WalkFindsBoth(points: seq<BurndownPoint>, budget: int, periodStart: int)
    requires forall k :: 0 <= k < |points| ==>
      points[k].date == periodStart + k && points[k].projectedMicroUsd <= points[k].highMicroUsd
    ensures BreachContract(points, budget, periodStart, Breach(points, Some(budget), periodStart))
  {
    hide FirstReach;
    var hit := FirstReach(points, ProjectedEdge, budget);
    var walked := if hit.Some? then points[..hit.value + 1] else points;
    var early := FirstReach(walked, HighEdge, budget);
    assert forall p :: p in points ==> exists k :: 0 <= k < |points| && points[k] == p;
    if hit.Some? {
      assert walked[hit.value] == points[hit.value];
      assert HighEdge(walked[hit.value]) >= budget;
      assert points[hit.value] in points;
    }
    if early.Some? {
      assert walked[early.value] == points[early.value];
      assert points[early.value] in points;
      forall j | 0 <= j < early.value ensures HighEdge(points[j]) < budget {
        assert walked[j] == points[j];
      }
    }
  }

  // ---- Order of the input, and medians ----

  lemma {:induction false} SettledIgnoresOrder(input: ForecastInput, days: seq<DailySpend>)
    requires AcceptableInput(input) && multiset(days) == multiset(input.days)
    ensures Settled(input.(days := days)) == Settled(input)
  {
    var p := UpTo(input.asOf);
    var s, t := Filter(input.days, p), Filter(days, p);
    FilterPermutes(input.days, days, p);
    SortPermutes(s, EarlierFirst);
    SortPermutes(t, EarlierFirst);
    SortSorts(s, EarlierFirst);
    SortSorts(t, EarlierFirst);
    SettledDistinct(input);
    SortedUnique(Settled(input), Sort(t, EarlierFirst), EarlierFirst);
  }

  /** The whole forecast is unchanged by any reordering of its input days. */
  lemma {:induction false} ForecastIgnoresOrder(input: ForecastInput, days: seq<DailySpend>, sqrt: real -> real)
    requires AcceptableInput(input) && multiset(days) == multiset(input.days)
    ensures ForecastOf(input.(days := days), sqrt) == ForecastOf(input, sqrt)
  {
    hide Settled, SampleStdDev, Basis.Burndown, Breach, NaiveRunRate, WeekdayMedian, Trailing, Filter, JsRound, Map;
    var other := input.(days := days);
    SameMembers(days, input.days);
    DatesDistinctAfter(input.days, days);
    ForecastAcceptsExactly(input, sqrt);
    ForecastAcceptsExactly(other, sqrt);
    SettledIgnoresOrder(input, days);
    assert BasisOf(other, sqrt) == BasisOf(input, sqrt);
  }

  /** The median lies between the two middle values of the sorted list, which for an odd count are one
      and the same. */
  lemma {:induction false} MedianBetweenMiddles(values: seq<int>)
    requires values != []
    ensures var sorted := Sort(values, AtMost);
      && |sorted| == |values| && SortedBy(sorted, AtMost) && multiset(sorted) == multiset(values)
      && sorted[(|values| - 1) / 2] <= Median(values) <= sorted[|values| / 2]
  {
    hide Sort, JsRound;
    SortPermutes(values, AtMost);
    SortSorts(values, AtMost);
    var sorted, mid := Sort(values, AtMost), |values| / 2;
    if |values| % 2 == 0 {
      assert AtMost(sorted[mid - 1], sorted[mid]);
      RoundHalf(sorted[mid - 1], sorted[mid]);
    }
  }

  lemma {:induction false} RoundHalf(a: int, b: int)
    requires a <= b
    ensures a <= JsRound((a + b) as real / 2.0) <= b
  {
    var x := (a + b) as real / 2.0;
    assert a as real <= x <= b as real;
  }

  lemma {:induction false} OnlyTheSpikeIsOutside(values: seq<int>, i: nat, x: int)
    requires i < |values| && x !in Without(values, i)
    ensures multiset(values[i := x])[x] == 1
  {
    MultisetWithout(values[i := x], i);
    assert Without(values[i := x], i) == Without(values, i);
    assert values[i := x][i] == x && x in values[i := x];
    assert x in multiset(values[i := x]) && x !in multiset(Without(values, i));
  }

  /** No two neighbours of a sorted list can both be the one odd value out. */
  lemma {:induction false} NeighboursNotBothSpike(values: seq<int>, i: nat, x: int, sorted: seq<int>, k: nat)
    requires i < |values| && x !in Without(values, i)
    requires multiset(sorted) == multiset(values[i := x]) && k + 1 < |sorted|
    ensures !(sorted[k] == x && sorted[k + 1] == x)
  {
    OnlyTheSpikeIsOutside(values, i, x);
    if sorted[k] == x && sorted[k + 1] == x {
      RepeatedMultiplicity(sorted, k, k + 1);
    }
  }

  lemma {:induction false} KeptElsewhere(values: seq<int>, i: nat, k: nat)
    requires i < |values| && k < |values| && k != i
    ensures values[k] in Without(values, i)
  {
    assert values[k] == if k < i then Without(values, i)[k] else Without(values, i)[k - 1];
  }

  /** One spike day cannot carry a median away: with three or more observations, whatever one of them
      is replaced by, the median stays between the bounds of the others. */
  lemma {:induction false} MedianResistsOneSpike(values: seq<int>, i: nat, x: int, lo: int, hi: int)
    requires |values| >= 3 && i < |values|
    requires forall v :: v in Without(values, i) ==> lo <= v <= hi
    ensures lo <= Median(values[i := x]) <= hi
  {
    hide Sort, Median;
    var spiked := values[i := x];
    var n, sorted := |values|, Sort(spiked, AtMost);
    MedianBetweenMiddles(spiked);
    SortMembers(spiked, AtMost);
    forall v | v in sorted && v != x ensures lo <= v <= hi {
      var k :| 0 <= k < n && spiked[k] == v;
      KeptElsewhere(values, i, k);
    }
    assert sorted[0] in sorted && sorted[1] in sorted && sorted[n - 2] in sorted && sorted[n - 1] in sorted;
    if x !in Without(values, i) {
      NeighboursNotBothSpike(values, i, x, sorted, 0);
      NeighboursNotBothSpike(values, i, x, sorted, n - 2);
    }
    assert lo <= sorted[1] && sorted[n - 2] <= hi;
    var low, high := (n - 1) / 2, n / 2;
    assert low == 1 || AtMost(sorted[1], sorted[low]);
    assert high == n - 2 || AtMost(sorted[high], sorted[n - 2]);
  }

  // ---- What a median is ----

  ghost predicate Ascending(s: seq<int>) {
    forall i, j :: 0 <= i < j < |s| ==> s[i] <= s[j]
  }

  /** The median of an odd count is the middle value, of an even count the middle pair's half sum, rounded
      half upwards, in whatever order the values come. */
  lemma {:induction false} MedianIs(values: seq<int>, ordered: seq<int>)
    requires values != [] && Ascending(ordered) && multiset(ordered) == multiset(values)
    ensures |ordered| == |values|
    ensures var n, m := |values|, Median(values);
      if n % 2 == 1 then m == ordered[n / 2]
      else 0 <= 2 * m - (ordered[n / 2 - 1] + ordered[n / 2]) <= 1
  {
    SortPermutes(values, AtMost);
    SortSorts(values, AtMost);
    SortedUnique(ordered, Sort(values, AtMost), AtMost);
    hide Sort, JsRound;
    var n := |values|;
    if n % 2 == 0 {
      HalfSum(ordered[n / 2 - 1], ordered[n / 2]);
    }
  }

  lemma {:induction false} HalfSum(a: int, b: int)
    ensures 0 <= 2 * JsRound((a + b) as real / 2.0) - (a + b) <= 1
  {
    var x := (a + b) as real / 2.0;
    assert x + 0.5 == (a + b + 1) as real / 2.0;
  }

  lemma {:induction false} MedianIgnoresOrder(s: seq<int>, t: seq<int>)
    requires s != [] && multiset(s) == multiset(t)
    ensures t != [] && Median(s) == Median(t)
  {
    SameMembers(s, t);
    SortPermutes(s, AtMost);
    SortPermutes(t, AtMost);
    SortSorts(s, AtMost);
    SortSorts(t, AtMost);
    SortedUnique(Sort(s, AtMost), Sort(t, AtMost), AtMost);
  }

  // ---- The window, and what a remaining day costs ----

  /** The newest settled days, at most twenty-eight of them: every settled day left out is earlier. */
  ghost predicate NewestSettled(window: seq<DailySpend>, input: ForecastInput) {
    && |window| == Min(28, |Filter(input.days, UpTo(input.asOf))|) && DistinctDates(window)
    && (forall d :: d in window ==> d in input.days && d.date <= input.asOf)
    && (forall d, e :: d in input.days && d.date <= input.asOf && d !in window && e in window ==> d.date < e.date)
  }

  /** A suffix of days in date order holds the newest of them. */
  lemma {:induction false} SuffixIsNewest(days: seq<DailySpend>, cut: nat)
    requires cut <= |days| && SortedBy(days, EarlierFirst) && DistinctDates(days)
    ensures DistinctDates(days[cut..]) && forall d :: d in days[cut..] ==> d in days
    ensures forall d, e :: d in days && d !in days[cut..] && e in days[cut..] ==> d.date < e.date
  {
    var window := days[cut..];
    forall i | cut <= i < |days| ensures days[i] in window {
      assert window[i - cut] == days[i];
    }
    forall d, e | d in days && d !in window && e in window ensures d.date < e.date {
      var i :| 0 <= i < |days| && days[i] == d;
      var j :| 0 <= j < |window| && window[j] == e;
      assert EarlierFirst(days[i], days[cut + j]);
    }
  }

  lemma {:induction false} TrailingIsSuffix(settled: seq<DailySpend>)
    ensures var window := Trailing(settled);
      |window| == Min(28, |settled|) && window == settled[|settled| - |window|..]
  {
  }

  lemma {:induction false} SettledAscends(input: ForecastInput)
    ensures SortedBy(Settled(input), EarlierFirst)
  {
    SortSorts(Filter(input.days, UpTo(input.asOf)), EarlierFirst);
  }

  lemma {:induction false} TrailingIsNewest(input: ForecastInput)
    requires AcceptableInput(input)
    ensures NewestSettled(Trailing(Settled(input)), input)
  {
    hide Settled, AcceptableInput, SortedBy, PeriodDaysOf, DistinctDates, Trailing, Filter;
    var settled := Settled(input);
    SettledCount(input);
    SettledDistinct(input);
    SettledAscends(input);
    TrailingIsSuffix(settled);
    SuffixIsNewest(settled, |settled| - |Trailing(settled)|);
  }

  lemma {:induction false} SubsetIsSmaller<T>(s: set<T>, t: set<T>)
    requires s <= t && |s| == |t|
    ensures s == t
  {
    if x :| x in t && x !in s {
      assert s <= t - {x};
      SmallerIsSmaller(s, t - {x});
    }
  }

  lemma {:induction false} SmallerIsSmaller<T>(s: set<T>, t: set<T>)
    requires s <= t
    ensures |s| <= |t|
  {
    if x :| x in s {
      SmallerIsSmaller(s - {x}, t - {x});
    }
  }

  lemma {:induction false} SetOfDistinct(days: seq<DailySpend>)
    requires DistinctDates(days)
    ensures |set d | d in days| == |days|
  {
    if days != [] {
      SetOfDistinct(days[1..]);
      assert (set d | d in days) == {days[0]} + set d | d in days[1..];
    }
  }

  /** There is only one such window, up to order. */
  lemma {:induction false} NewestIsUnique(w: seq<DailySpend>, v: seq<DailySpend>, input: ForecastInput)
    requires NewestSettled(w, input) && NewestSettled(v, input)
    ensures multiset(w) == multiset(v)
  {
    var a, b := set d | d in w, set d | d in v;
    SetOfDistinct(w);
    SetOfDistinct(v);
    if d :| d in a && d !in b {
      if e :| e in b && e !in a {
        assert false;
      } else {
        assert b <= a;
        SubsetIsSmaller(b, a);
      }
    } else {
      assert a <= b;
      SubsetIsSmaller(a, b);
    }
    assert a == b;
    assert forall d :: d in w <==> d in a;
    assert forall d :: d in v <==> d in b;
    DistinctSameMembers(w, v);
  }

  function SameWeekday(day: int): DailySpend -> bool {
    (d: DailySpend) => (d.date - day) % 7 == 0
  }

  /** What a day is expected to cost, from a window of days: the median of the amounts whole weeks apart
      from it, or of all amounts when there are none. */
  function Figure(window: seq<DailySpend>, day: int): int
    requires window != []
  {
    var same := Filter(window, SameWeekday(day));
    Median(Map(if same != [] then same else window, Amount))
  }

  lemma {:induction false} ExpectedIsFigure(window: seq<DailySpend>, day: int)
    requires window != []
    ensures Expected(window, day) == Figure(window, day)
  {
    forall d | d in window ensures OnWeekday(WeekdayOf(day))(d) == SameWeekday(day)(d) {
      WeekdayIsModulus(day);
      WeekdayIsModulus(d.date);
      WeeksApart(d.date, day);
    }
    hide Median, WeekdayOf;
    FilterCongruent(window, OnWeekday(WeekdayOf(day)), SameWeekday(day));
  }

  lemma {:induction false} WeeksApart(a: int, b: int)
    ensures (a + 4) % 7 == (b + 4) % 7 <==> (a - b) % 7 == 0
  {
  }

  lemma {:induction false} FigureIgnoresOrder(w: seq<DailySpend>, v: seq<DailySpend>, day: int)
    requires w != [] && multiset(w) == multiset(v)
    ensures v != [] && Figure(w, day) == Figure(v, day)
  {
    SameMembers(w, v);
    FilterPermutes(w, v, SameWeekday(day));
    var s, t := Filter(w, SameWeekday(day)), Filter(v, SameWeekday(day));
    SameMembers(s, t);
    hide Median, Filter;
    MapPermutes(s, t, Amount);
    MapPermutes(w, v, Amount);
    if s != [] {
      MedianIgnoresOrder(Map(s, Amount), Map(t, Amount));
    } else {
      MedianIgnoresOrder(Map(w, Amount), Map(v, Amount));
    }
  }

  /** From day `k` on the projection grows by the figure of each day. */
  ghost predicate Grows(points: seq<BurndownPoint>, from: int, window: seq<DailySpend>, start: int)
    requires window != []
  {
    forall k :: 0 <= k < |points| && from <= k ==>
      points[k].projectedMicroUsd == Before(points, k) + Figure(window, start + k)
  }

  function Before(points: seq<BurndownPoint>, k: nat): int
    requires k <= |points|
  {
    if k == 0 then 0 else points[k - 1].projectedMicroUsd
  }

  /** The headline, day by day: over the burn-down a caller receives, every remaining day adds the median
      of the newest settled amounts on its weekday, or of all of them for a weekday never seen. */
  lemma {:induction false} EachDayIsMedian(input: ForecastInput, window: seq<DailySpend>, sqrt: real -> real)
    requires AcceptableInput(input) && |Settled(input)| >= MIN_HISTORY_DAYS && NewestSettled(window, input)
    ensures ForecastOf(input, sqrt).Ok? && window != []
    ensures var f := ForecastOf(input, sqrt).value; Grows(f.burndown, f.daysElapsed, window, input.periodStart)
  {
    hide Settled, Trailing, NewestSettled, ForecastOf, BasisOf, AcceptableInput, PeriodDays, Basis.Burndown, Grows;
    SettledCount(input);
    TrailingIsNewest(input);
    NewestIsUnique(window, Trailing(Settled(input)), input);
    ForecastShows(input, sqrt);
    BasisShape(input, sqrt);
    SameMembers(window, Trailing(Settled(input)));
    BasisSteps(BasisOf(input, sqrt), sqrt);
    GrowsAlike(ForecastOf(input, sqrt).value.burndown, ForecastOf(input, sqrt).value.daysElapsed,
               Trailing(Settled(input)), window, input.periodStart);
  }

  lemma {:induction false} BasisSteps(b: Basis, sqrt: real -> real)
    requires b.Valid()
    ensures Grows(b.Burndown(sqrt), b.DaysInPeriod() - Remaining(b), b.window, b.periodStart)
  {
    hide Basis.Burndown, Basis.Point, Basis.Cumulative, Figure, Before, Remaining;
    BurndownAt(b, 0, sqrt);
    var points, from := b.Burndown(sqrt), b.DaysInPeriod() - Remaining(b);
    forall k | 0 <= k < |points| && from <= k
      ensures points[k].projectedMicroUsd == Before(points, k) + Figure(b.window, b.periodStart + k)
    {
      DayStep(b, k, sqrt);
    }
  }

  lemma {:induction false} GrowsAlike(points: seq<BurndownPoint>, from: int, w: seq<DailySpend>, v: seq<DailySpend>,
                                      start: int)
    requires w != [] && multiset(w) == multiset(v)
    ensures v != [] && (Grows(points, from, w, start) <==> Grows(points, from, v, start))
  {
    SameMembers(w, v);
    forall day ensures Figure(w, day) == Figure(v, day) {
      FigureIgnoresOrder(w, v, day);
    }
    hide Figure, Before;
  }

  lemma {:induction false} PointProjects(b: Basis, day: int, sqrt: real -> real)
    requires b.Valid()
    ensures b.Point(day, sqrt).projectedMicroUsd == b.Cumulative(day)
  {
    hide Basis.Cumulative, BandHalfWidth;
  }

  lemma {:induction false} BurndownAt(b: Basis, k: nat, sqrt: real -> real)
    requires b.Valid() && k < b.DaysInPeriod()
    ensures |b.Burndown(sqrt)| == b.DaysInPeriod()
    ensures b.Burndown(sqrt)[k].projectedMicroUsd == b.Cumulative(b.periodStart + k)
  {
    hide Basis.Cumulative, Basis.Point;
    PointProjects(b, b.periodStart + k, sqrt);
  }

  lemma {:induction false} DayStep(b: Basis, k: nat, sqrt: real -> real)
    requires b.Valid() && k < b.DaysInPeriod() && b.DaysInPeriod() - Remaining(b) <= k
    ensures |b.Burndown(sqrt)| == b.DaysInPeriod()
    ensures b.Burndown(sqrt)[k].projectedMicroUsd == Before(b.Burndown(sqrt), k) + Figure(b.window, b.periodStart + k)
  {
    hide Basis.Burndown, Basis.Point, Expected, Figure, Basis.Cumulative;
    BurndownAt(b, k, sqrt);
    if k > 0 {
      BurndownAt(b, k - 1, sqrt);
    }
    ExpectedIsFigure(b.window, b.periodStart + k);
    CumulativeStep(b, b.periodStart + k);
  }

  lemma {:induction false} CumulativeStep(b: Basis, day: int)
    requires b.Valid() && day > b.asOf && day >= b.periodStart
    ensures b.Cumulative(day) ==
      (if day == b.periodStart then 0 else b.Cumulative(day - 1)) + Expected(b.window, day)
  {
    hide Expected;
  }
}
