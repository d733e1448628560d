/** The figures a forecast prints beside its burn-down, characterised without the expressions that compute
    them. */
module ForecastFigures {
  import opened Money
  import opened Results
  import opened Sums
  import opened Sorting
  import opened Calendar
  import opened Forecast
  import opened ForecastTheorems

  // ---- Spread and band ----

  /** The spread of some amounts, by their squares and their sum: no mean and no deviation is taken. */
  lemma {:induction false} SpreadIs(values: seq<int>, sqrt: real -> real)
    requires |values| >= 2 && IsSquareRoot(sqrt)
    ensures var n, s := |values|, SampleStdDev(values, sqrt);
      s >= 0.0 && s * s * (n * (n - 1)) as real == (n * SumBy(values, Square) - Ints(values) * Ints(values)) as real
  {
    hide SumBy, Ints, SampleStdDev, Variance, IsRootOf, IsSquareRoot;
    var n := |values|;
    VarianceIs(values);
    StdDevIsRoot(values, sqrt);
    RootScaled(SampleStdDev(values, sqrt), Variance(values), (n * (n - 1)) as real,
               (n * SumBy(values, Square) - Ints(values) * Ints(values)) as real);
  }

  lemma {:induction false} RootScaled(s: real, v: real, scale: real, scaled: real)
    requires IsRootOf(s, v) && v * scale == scaled
    ensures s >= 0.0 && s * s * scale == scaled
  {
  }

  lemma {:induction false} StdDevIsRoot(values: seq<int>, sqrt: real -> real)
    requires |values| >= 2 && IsSquareRoot(sqrt) && Variance(values) >= 0.0
    ensures IsRootOf(SampleStdDev(values, sqrt), Variance(values))
  {
    hide SquaredDeviations, SumBy, Ints;
  }

  function Variance(values: seq<int>): real
    requires |values| >= 2
  {
    SquaredDeviations(values, Ints(values) as real / |values| as real) / (|values| - 1) as real
  }

  lemma {:induction false} VarianceIs(values: seq<int>)
    requires |values| >= 2
    ensures var n := |values|;
      && Variance(values) >= 0.0
      && Variance(values) * (n * (n - 1)) as real == (n * SumBy(values, Square) - Ints(values) * Ints(values)) as real
  {
    hide SquaredDeviations, SumBy, Ints;
    var n, sum, squares := |values| as real, Ints(values) as real, SumBy(values, Square) as real;
    var mean := sum / n;
    DeviationsAre(values, mean);
    DeviationsNotNegative(values, mean);
    var deviations := SquaredDeviations(values, mean);
    SpreadOfDeviations(n, sum, squares, mean, deviations);
    QuotientNotNegative(deviations, (|values| - 1) as real);
    SquaresOfSpread(|values|, Ints(values), SumBy(values, Square), deviations, Variance(values));
  }

  const Square: int -> int := (x: int) => x * x

  lemma {:induction false} DeviationsAre(values: seq<int>, mean: real)
    ensures SquaredDeviations(values, mean)
         == SumBy(values, Square) as real - 2.0 * mean * Ints(values) as real + |values| as real * (mean * mean)
  {
    if values != [] {
      DeviationsAre(values[1..], mean);
      OneDeviation(values[0], mean, SumBy(values[1..], Square), Ints(values[1..]), |values[1..]|);
    }
  }

  lemma {:induction false} OneDeviation(x: int, mean: real, squares: int, sum: int, n: int)
    ensures (x as real - mean) * (x as real - mean)
      + (squares as real - 2.0 * mean * sum as real + n as real * (mean * mean))
         == (x * x + squares) as real - 2.0 * mean * (x + sum) as real + (n + 1) as real * (mean * mean)
  {
    var r := x as real;
    assert (x * x) as real == r * r;
    assert (r - mean) * (r - mean) == r * r - 2.0 * mean * r + mean * mean;
  }

  lemma {:induction false} DeviationsNotNegative(values: seq<int>, mean: real)
    ensures SquaredDeviations(values, mean) >= 0.0
  {
    if values != [] {
      DeviationsNotNegative(values[1..], mean);
    }
  }

  lemma {:induction false} SpreadOfDeviations(n: real, sum: real, squares: real, mean: real, deviations: real)
    requires n > 0.0 && mean == sum / n && deviations == squares - 2.0 * mean * sum + n * (mean * mean)
    ensures n * deviations == n * squares - sum * sum
  {
    assert n * mean == sum;
    assert n * (n * (mean * mean)) == (n * mean) * (n * mean);
    assert n * (2.0 * mean * sum) == 2.0 * (n * mean) * sum;
  }

  lemma {:induction false} QuotientNotNegative(x: real, d: real)
    requires x >= 0.0 && d > 0.0
    ensures x / d >= 0.0
  {
  }

  lemma {:induction false} SquaresOfSpread(n: int, sum: int, squares: int, deviations: real, v: real)
    requires n >= 2 && v == deviations / (n - 1) as real
    requires n as real * deviations == n as real * squares as real - sum as real * sum as real
    ensures v * (n * (n - 1)) as real == (n * squares - sum * sum) as real
  {
    assert v * (n - 1) as real == deviations;
    assert (n * (n - 1)) as real == n as real * (n - 1) as real;
    assert v * (n as real * (n - 1) as real) == n as real * (v * (n - 1) as real);
    assert (n * squares) as real == n as real * squares as real;
    assert (sum * sum) as real == sum as real * sum as real;
  }

  /** `half` is to the nearest unit the root `r`, given by its square: 1.2816 deviations, widened by one and a
      half times the part of the period still ahead, times the square root of the days ahead. */
  ghost predicate Banded(half: int, stdDev: int, daysAhead: int, daysInPeriod: int, r: real) {
    && daysInPeriod > 0
    && var edge := 1.2816 * stdDev as real * (1.0 + 1.5 * (daysAhead as real / daysInPeriod as real));
       IsRootOf(r, edge * edge * daysAhead as real) && r - 0.5 < half as real <= r + 0.5
  }

  lemma {:induction false} BandIs(stdDev: int, daysAhead: int, daysInPeriod: int, sqrt: real -> real) returns (r: real)
    requires IsSquareRoot(sqrt) && stdDev > 0 && daysAhead > 0 && daysInPeriod > 0
    ensures Banded(BandHalfWidth(stdDev, daysAhead, daysInPeriod, sqrt), stdDev, daysAhead, daysInPeriod, r)
  {
    var z, root := 1.2816 * stdDev as real, sqrt(daysAhead as real);
    var w := 1.0 + 1.5 * (daysAhead as real / daysInPeriod as real);
    QuotientNotNegative(daysAhead as real, daysInPeriod as real);
    RootOfEdge(z, root, w, daysAhead as real);
    r := z * root * w;
  }

  predicate IsRootOf(r: real, x: real) {
    r >= 0.0 && r * r == x
  }

  lemma {:induction false} RootOfEdge(z: real, root: real, w: real, ahead: real)
    requires z >= 0.0 && root >= 0.0 && w >= 0.0 && root * root == ahead
    ensures IsRootOf(z * root * w, (z * w) * (z * w) * ahead)
  {
    ScaleMonotone(z, 0.0, root);
    ScaleMonotone(z * root, 0.0, w);
    assert z * root * w == (z * w) * root;
    assert ((z * w) * root) * ((z * w) * root) == (z * w) * (z * w) * (root * root);
  }

  // ---- The figures of a projection ----

  function OfWeekday(weekday: int): DailySpend -> bool {
    (d: DailySpend) => (d.date + 4) % 7 == weekday
  }

  /** What a projection prints, from the newest settled days alone: their first and last date, the median of
      each weekday, the spread to the nearest unit, and the run rate to the nearest unit. */
  ghost predicate PrintedFigures(f: SpendForecast, window: seq<DailySpend>, sqrt: real -> real) {
    && f.windowStart.Some? && f.windowEnd.Some?
    && (forall d :: d in window ==> f.windowStart.value <= d.date <= f.windowEnd.value)
    && (exists d :: d in window && d.date == f.windowStart.value)
    && (exists d :: d in window && d.date == f.windowEnd.value)
    && |f.weekdayMedianMicroUsd| == 7
    && (forall w :: 0 <= w < 7 ==>
         f.weekdayMedianMicroUsd[w] == MedianOf(Map(Filter(window, OfWeekday(w)), Amount)))
    && f.dailyStdDevMicroUsd.Some?
    && Nearest(f.dailyStdDevMicroUsd.value, SampleStdDev(Map(window, Amount), sqrt))
    && RunRate(f.naiveRunRateMicroUsd, f.spendToDateMicroUsd, f.daysElapsed, f.daysInPeriod)
  }

  /** `n` is `x` to the nearest unit, halves upwards. */
  predicate Nearest(n: int, x: real) {
    n as real - 0.5 <= x < n as real + 0.5
  }

  function MedianOf(values: seq<int>): Option<int> {
    if values == [] then None else Some(Median(values))
  }

  lemma {:induction false} RoundIsNearest(x: real)
    ensures Nearest(JsRound(x), x)
  {
  }

  /** Spend so far, spread over the period at the pace of the days elapsed; none before the first of them. */
  ghost predicate RunRate(naive: Option<int>, spent: int, elapsed: int, inPeriod: int) {
    && (naive.Some? <==> elapsed > 0)
    && (elapsed > 0 ==> -elapsed <= 2 * (spent * inPeriod - naive.value * elapsed) < elapsed)
  }

  lemma {:induction false} RunRateIs(spent: int, elapsed: int, inPeriod: int)
    ensures RunRate(NaiveRunRate(spent, elapsed, inPeriod), spent, elapsed, inPeriod)
  {
    if elapsed > 0 {
      var x := spent as real / elapsed as real * inPeriod as real;
      RoundIsNearest(x);
      var n := JsRound(x);
      hide JsRound;
      RoundedRate(spent, elapsed, inPeriod, x, n);
    }
  }

  lemma {:induction false} RoundedRate(spent: int, elapsed: int, inPeriod: int, x: real, n: int)
    requires elapsed > 0 && x == spent as real / elapsed as real * inPeriod as real && Nearest(n, x)
    ensures -elapsed <= 2 * (spent * inPeriod - n * elapsed) < elapsed
  {
    var scaled := x * elapsed as real;
    ScaledRate(spent, elapsed, inPeriod, x);
    ScaledNearest(elapsed, x, n);
    HalfBounds(spent * inPeriod, n * elapsed, elapsed, scaled);
  }

  lemma {:induction false} ScaledRate(spent: int, elapsed: int, inPeriod: int, x: real)
    requires elapsed > 0 && x == spent as real / elapsed as real * inPeriod as real
    ensures (spent * inPeriod) as real == x * elapsed as real
  {
    RateTimes(spent as real, elapsed as real, inPeriod as real, x);
    WholeProduct(spent, inPeriod);
  }

  lemma {:induction false} ScaledNearest(elapsed: int, x: real, n: int)
    requires elapsed > 0 && Nearest(n, x)
    ensures var near := (n * elapsed) as real;
      near - 0.5 * elapsed as real <= x * elapsed as real < near + 0.5 * elapsed as real
  {
    WholeProduct(n, elapsed);
    AroundHalf(n as real, elapsed as real);
    ScaleWithin(n as real - 0.5, x, n as real + 0.5, elapsed as real, (n * elapsed) as real - 0.5 * elapsed as real,
                (n * elapsed) as real + 0.5 * elapsed as real);
  }

  lemma {:induction false} ScaleWithin(lo: real, x: real, hi: real, e: real, low: real, high: real)
    requires lo <= x < hi && e > 0.0 && low == lo * e && high == hi * e
    ensures low <= x * e < high
  {
    ScaleBounds(lo, x, hi, e);
  }

  lemma {:induction false} RateTimes(s: real, e: real, p: real, x: real)
    requires e > 0.0 && x == s / e * p
    ensures x * e == s * p
  {
    var q := s / e;
    assert q * e == s;
    assert (q * p) * e == (q * e) * p;
  }

  lemma {:induction false} AroundHalf(n: real, e: real)
    ensures (n - 0.5) * e == n * e - 0.5 * e && (n + 0.5) * e == n * e + 0.5 * e
  {
  }

  lemma {:induction false} WholeProduct(a: int, b: int)
    ensures (a * b) as real == a as real * b as real
  {
  }

  lemma {:induction false} HalfBounds(total: int, near: int, elapsed: int, x: real)
    requires total as real == x && near as real - 0.5 * elapsed as real <= x < near as real + 0.5 * elapsed as real
    ensures -elapsed <= 2 * (total - near) < elapsed
  {
  }

  lemma {:induction false} ScaleBounds(lo: real, x: real, hi: real, e: real)
    requires lo <= x < hi && e > 0.0
    ensures lo * e <= x * e < hi * e
  {
    PositiveProduct(hi - x, e);
    if lo < x {
      PositiveProduct(x - lo, e);
    }
  }

  lemma {:induction false} WeekdayMedianIs(window: seq<DailySpend>, w: int)
    requires 0 <= w < 7
    ensures WeekdayMedian(window, w) == MedianOf(Map(Filter(window, OfWeekday(w)), Amount))
  {
    forall d | d in window ensures OnWeekday(w)(d) == OfWeekday(w)(d) {
      WeekdayIsModulus(d.date);
    }
    hide WeekdayOf, Median;
    FilterCongruent(window, OnWeekday(w), OfWeekday(w));
  }

  lemma {:induction false} FirstAndLast(window: seq<DailySpend>)
    requires window != [] && SortedBy(window, EarlierFirst)
    ensures forall d :: d in window ==> window[0].date <= d.date <= window[|window| - 1].date
    ensures window[0] in window && window[|window| - 1] in window
  {
    forall d | d in window ensures window[0].date <= d.date <= window[|window| - 1].date {
      var i :| 0 <= i < |window| && window[i] == d;
      assert i > 0 ==> EarlierFirst(window[0], window[i]);
      assert i < |window| - 1 ==> EarlierFirst(window[i], window[|window| - 1]);
    }
  }

  lemma {:induction false} ProjectionPrints(input: ForecastInput, basis: Basis, historyDays: nat, sqrt: real -> real)
    requires basis.Valid() && SortedBy(basis.window, EarlierFirst)
    requires basis.stdDev == JsRound(SampleStdDev(Map(basis.window, Amount), sqrt))
    ensures PrintedFigures(Projection(input, basis, historyDays, sqrt), basis.window, sqrt)
  {
    hide Breach, SampleStdDev, WeekdayMedian, MedianOf, Basis.Point, SortedBy, JsRound, Nearest, Filter,
         Basis.SpendToDate;
    var f := Projection(input, basis, historyDays, sqrt);
    FirstAndLast(basis.window);
    RoundIsNearest(SampleStdDev(Map(basis.window, Amount), sqrt));
    forall w | 0 <= w < 7
      ensures WeekdayMedian(basis.window, w) == MedianOf(Map(Filter(basis.window, OfWeekday(w)), Amount))
    {
      WeekdayMedianIs(basis.window, w);
    }
    RunRateIs(f.spendToDateMicroUsd, f.daysElapsed, f.daysInPeriod);
    hide NaiveRunRate, DaysElapsed;
  }

  lemma {:induction false} SuffixSorted(s: seq<DailySpend>, cut: nat)
    requires cut <= |s| && SortedBy(s, EarlierFirst)
    ensures SortedBy(s[cut..], EarlierFirst)
  {
  }

  /** With enough history, the figures beside the projection are those of the newest settled days. */
  lemma {:induction false} FiguresArePrinted(input: ForecastInput, sqrt: real -> real)
    requires AcceptableInput(input) && |Settled(input)| >= MIN_HISTORY_DAYS
    ensures ForecastOf(input, sqrt).Ok?
    ensures exists window ::
      NewestSettled(window, input) && PrintedFigures(ForecastOf(input, sqrt).value, window, sqrt)
  {
    var window := Trailing(Settled(input));
    TrailingIsNewest(input);
    SettledAscends(input);
    TrailingIsSuffix(Settled(input));
    SuffixSorted(Settled(input), |Settled(input)| - |window|);
    Projects(input, sqrt);
    BasisSpread(input, sqrt);
    hide Settled, ForecastOf, BasisOf, Projection, PrintedFigures, NewestSettled, SortedBy, Trailing, AcceptableInput;
    ProjectionPrints(input, BasisOf(input, sqrt), |Settled(input)|, sqrt);
  }

  lemma {:induction false} BasisSpread(input: ForecastInput, sqrt: real -> real)
    ensures var b := BasisOf(input, sqrt);
      b.window == Trailing(Settled(input)) && b.stdDev == JsRound(SampleStdDev(Map(b.window, Amount), sqrt))
  {
    hide Settled, Trailing, SampleStdDev, JsRound, Filter;
  }

  /** The band of every remaining day, from the printed spread, the days ahead and the days of the period. */
  lemma {:induction false} EachDayIsBanded(input: ForecastInput, k: nat, sqrt: real -> real) returns (r: real)
    requires AcceptableInput(input) && |Settled(input)| >= MIN_HISTORY_DAYS && IsSquareRoot(sqrt)
    requires ForecastOf(input, sqrt).Ok?
    requires var f := ForecastOf(input, sqrt).value;
      f.daysElapsed <= k < |f.burndown| && f.dailyStdDevMicroUsd.Some? && f.dailyStdDevMicroUsd.value > 0
    ensures var f := ForecastOf(input, sqrt).value;
      Banded(BandOf(f.burndown[k]), f.dailyStdDevMicroUsd.value, k - f.daysElapsed + 1, f.daysInPeriod, r)
  {
    hide Settled, ForecastOf, BasisOf, AcceptableInput, PeriodDays, BandHalfWidth, BandOf, Basis.Burndown, Banded,
         Basis.Point, IsSquareRoot, Basis.SpendToDate;
    ForecastShows(input, sqrt);
    r := BasisBanded(BasisOf(input, sqrt), k, sqrt);
  }

  lemma {:induction false} BasisBanded(b: Basis, k: nat, sqrt: real -> real) returns (r: real)
    requires b.Valid() && IsSquareRoot(sqrt) && b.stdDev > 0 && b.DaysInPeriod() - Remaining(b) <= k < b.DaysInPeriod()
    ensures |b.Burndown(sqrt)| == b.DaysInPeriod()
    ensures Banded(BandOf(b.Burndown(sqrt)[k]), b.stdDev, k - (b.DaysInPeriod() - Remaining(b)) + 1, b.DaysInPeriod(),
                   r)
  {
    hide BandHalfWidth, BandOf, Basis.Burndown, Banded, Basis.Point, IsSquareRoot;
    BandAhead(b, k, sqrt);
    r := BandIs(b.stdDev, k - (b.DaysInPeriod() - Remaining(b)) + 1, b.DaysInPeriod(), sqrt);
  }
}
