/** The spend forecasting engine (web/lib/forecast.ts): day-of-week medians, a cone, and the first
    day the projection reaches the budget. Days are day numbers (see module Calendar). */
module Forecast {
  import opened Money
  import opened Results
  import opened Sums
  import opened Sorting
  import opened Calendar

  const MIN_HISTORY_DAYS := 14
  const TRAILING_WINDOW_DAYS := 28
  const CONFIDENCE_Z := 1.2816
  const EARLY_PERIOD_INFLATION := 1.5

  datatype DailySpend = DailySpend(date: int, microUsd: int)

  datatype ForecastStatus = Projected | InsufficientHistory

  datatype BreachOutcome = Breaches | Never | NoBudget | CannotProject

  datatype BreachForecast = BreachForecast(
    outcome: BreachOutcome, date: Option<int>, dayIndex: Option<int>,
    earliestDate: Option<int>, budgetMicroUsd: Option<int>)

  datatype BurndownPoint = BurndownPoint(
    date: int, actualMicroUsd: Option<int>, projectedMicroUsd: int, lowMicroUsd: int, highMicroUsd: int)

  datatype SpendForecast = SpendForecast(
    status: ForecastStatus,
    projectedMicroUsd: Option<int>, lowMicroUsd: Option<int>, highMicroUsd: Option<int>,
    naiveRunRateMicroUsd: Option<int>, spendToDateMicroUsd: int,
    daysElapsed: int, daysInPeriod: int, daysRemaining: int, historyDays: nat,
    windowStart: Option<int>, windowEnd: Option<int>,
    weekdayMedianMicroUsd: seq<Option<int>>, dailyStdDevMicroUsd: Option<int>,
    breach: BreachForecast, burndown: seq<BurndownPoint>)

  datatype ForecastInput = ForecastInput(
    days: seq<DailySpend>, periodStart: int, periodEnd: int, asOf: int, budgetMicroUsd: Option<int>)

  datatype ForecastError = PeriodInverted | UnsafeBudget | UnsafeDay(date: int) | DuplicateDay(date: int)

  const Amount: DailySpend -> int := (d: DailySpend) => d.microUsd
  const DateOf: DailySpend -> int := (d: DailySpend) => d.date

  // ---- Input checks ----

  function ScanDays(days: seq<DailySpend>, seen: set<int>): Option<ForecastError> {
    if days == [] then None
    else if !IsSafeInteger(days[0].microUsd) then Some(UnsafeDay(days[0].date))
    else if days[0].date in seen then Some(DuplicateDay(days[0].date))
    else ScanDays(days[1..], seen + {days[0].date})
  }

  function FirstProblem(input: ForecastInput): Option<ForecastError> {
    if input.periodEnd < input.periodStart then Some(PeriodInverted)
    else if input.budgetMicroUsd.Some? && !IsSafeInteger(input.budgetMicroUsd.value) then Some(UnsafeBudget)
    else ScanDays(input.days, {})
  }

  ghost predicate DistinctDates(days: seq<DailySpend>) {
    forall i, j :: 0 <= i < j < |days| ==> days[i].date != days[j].date
  }

  ghost predicate AcceptableInput(input: ForecastInput) {
    && input.periodStart <= input.periodEnd
    && (input.budgetMicroUsd.Some? ==> IsSafeInteger(input.budgetMicroUsd.value))
    && (forall d :: d in input.days ==> IsSafeInteger(d.microUsd))
    && DistinctDates(input.days)
  }

  // ---- Medians and spread ----

  predicate AtMost(a: int, b: int) {
    a <= b
  }

  function Median(values: seq<int>): int
    requires values != []
  {
    SortPermutes(values, AtMost);
    var sorted := Sort(values, AtMost);
    var mid := |sorted| / 2;
    if |sorted| % 2 == 1 then sorted[mid]
    else JsRound((sorted[mid - 1] + sorted[mid]) as real / 2.0)
  }

  function SampleStdDev(values: seq<int>, sqrt: real -> real): real {
    if |values| < 2 then 0.0
    else
      var mean := Ints(values) as real / |values| as real;
      sqrt(SquaredDeviations(values, mean) / (|values| - 1) as real)
  }

  function SquaredDeviations(values: seq<int>, mean: real): real {
    if values == [] then 0.0
    else (values[0] as real - mean) * (values[0] as real - mean) + SquaredDeviations(values[1..], mean)
  }

  /** The cone's half-width `daysAhead` days past the last settled day. */
  function BandHalfWidth(stdDev: int, daysAhead: int, daysInPeriod: int, sqrt: real -> real): int {
    if daysAhead <= 0 || stdDev <= 0 then 0
    else
      var unwritten := if daysInPeriod > 0 then daysAhead as real / daysInPeriod as real else 0.0;
      JsRound(CONFIDENCE_Z * stdDev as real * sqrt(daysAhead as real) * (1.0 + EARLY_PERIOD_INFLATION * unwritten))
  }

  // ---- The weekday profile ----

  predicate EarlierFirst(a: DailySpend, b: DailySpend) {
    a.date <= b.date
  }

  function UpTo(asOf: int): DailySpend -> bool {
    (d: DailySpend) => d.date <= asOf
  }

  function Within(first: int, last: int): DailySpend -> bool {
    (d: DailySpend) => first <= d.date <= last
  }

  function Settled(input: ForecastInput): seq<DailySpend> {
    Sort(Filter(input.days, UpTo(input.asOf)), EarlierFirst)
  }

  function Trailing(settled: seq<DailySpend>): seq<DailySpend> {
    if |settled| <= TRAILING_WINDOW_DAYS then settled else settled[|settled| - TRAILING_WINDOW_DAYS..]
  }

  function OnWeekday(weekday: int): DailySpend -> bool {
    (d: DailySpend) => WeekdayOf(d.date) == weekday
  }

  function Bucket(window: seq<DailySpend>, weekday: int): seq<int> {
    Map(Filter(window, OnWeekday(weekday)), Amount)
  }

  function WeekdayMedian(window: seq<DailySpend>, weekday: int): Option<int> {
    var bucket := Bucket(window, weekday);
    if bucket == [] then None else Some(Median(bucket))
  }

  /** What one remaining day is projected to cost: its weekday's median, or the overall median for a
      weekday never observed. */
  function Expected(window: seq<DailySpend>, day: int): int
    requires window != []
  {
    var own := WeekdayMedian(window, WeekdayOf(day));
    if own.Some? then own.value else Median(Map(window, Amount))
  }

  // ---- The burn-down ----

  /** Everything the burn-down is drawn from. `asOf` is already clamped into the period. */
  datatype Basis = Basis(
    periodStart: int, periodEnd: int, asOf: int, inPeriod: seq<DailySpend>, window: seq<DailySpend>, stdDev: int)
  {
    ghost predicate Valid() {
      periodStart <= periodEnd && asOf <= periodEnd && window != []
    }

    function DaysInPeriod(): int {
      periodEnd - periodStart + 1
    }

    function SpendToDate(): int {
      SumBy(inPeriod, Amount)
    }

    /** Spend added by one day: what was measured, or what is expected. */
    function DaySpend(day: int): int
      requires window != []
    {
      if day <= asOf then AmountOn(inPeriod, day) else Expected(window, day)
    }

    function Cumulative(day: int): int
      requires window != []
      decreases day - periodStart
    {
      if day < periodStart then 0 else Cumulative(day - 1) + DaySpend(day)
    }

    function HalfWidth(day: int, sqrt: real -> real): int {
      BandHalfWidth(stdDev, day - Max(asOf, periodStart - 1), DaysInPeriod(), sqrt)
    }

    function Point(day: int, sqrt: real -> real): BurndownPoint
      requires window != []
    {
      var cumulative := Cumulative(day);
      if day <= asOf then BurndownPoint(day, Some(cumulative), cumulative, cumulative, cumulative)
      else
        var half := HalfWidth(day, sqrt);
        BurndownPoint(day, None, cumulative, Min(cumulative, Max(cumulative - half, SpendToDate())), cumulative + half)
    }

    function Burndown(sqrt: real -> real): (points: seq<BurndownPoint>)
      requires Valid()
      ensures |points| == DaysInPeriod()
      ensures forall k :: 0 <= k < |points| ==> points[k] == Point(periodStart + k, sqrt)
    {
      seq(DaysInPeriod(), k requires 0 <= k => Point(periodStart + k, sqrt))
    }
  }

  /** `byDay.get(day) ?? 0` after filling the map in order. */
  function AmountOn(days: seq<DailySpend>, day: int): int {
    if days == [] then 0
    else if days[|days| - 1].date == day then days[|days| - 1].microUsd
    else AmountOn(days[..|days| - 1], day)
  }

  function BasisOf(input: ForecastInput, sqrt: real -> real): Basis {
    var asOf := Min(input.asOf, input.periodEnd);
    var settled := Settled(input);
    var window := Trailing(settled);
    Basis(input.periodStart, input.periodEnd, asOf, Filter(settled, Within(input.periodStart, asOf)), window,
          JsRound(SampleStdDev(Map(window, Amount), sqrt)))
  }

  // ---- The budget crossing ----

  const ProjectedEdge: BurndownPoint -> int := (p: BurndownPoint) => p.projectedMicroUsd
  const HighEdge: BurndownPoint -> int := (p: BurndownPoint) => p.highMicroUsd

  /** The first point at which an edge of the cone reaches the budget. */
  function FirstReach(points: seq<BurndownPoint>, edge: BurndownPoint -> int, budget: int): (r: Option<nat>)
    ensures r.Some? ==> r.value < |points| && edge(points[r.value]) >= budget
                        && forall j :: 0 <= j < r.value ==> edge(points[j]) < budget
    ensures r.None? ==> forall j :: 0 <= j < |points| ==> edge(points[j]) < budget
  {
    if points == [] then None
    else if edge(points[0]) >= budget then Some(0)
    else
      var later := FirstReach(points[1..], edge, budget);
      if later.Some? then Some(later.value + 1) else None
  }

  /** `breachFrom`. The walk stops at the breach, so the high edge is only looked at up to there. */
  function Breach(points: seq<BurndownPoint>, budget: Option<int>, periodStart: int): BreachForecast {
    if budget.None? then BreachForecast(NoBudget, None, None, None, None)
    else
      var hit := FirstReach(points, ProjectedEdge, budget.value);
      var walked := if hit.Some? then points[..hit.value + 1] else points;
      var early := FirstReach(walked, HighEdge, budget.value);
      BreachForecast(
        if hit.Some? then Breaches else Never,
        if hit.Some? then Some(points[hit.value].date) else None,
        if hit.Some? then Some(points[hit.value].date - periodStart + 1) else None,
        if early.Some? then Some(walked[early.value].date) else None,
        budget)
  }

  // ---- The forecast, as a function of its input ----

  function DaysElapsed(input: ForecastInput): int {
    var asOf := Min(input.asOf, input.periodEnd);
    if asOf < input.periodStart then 0 else asOf - input.periodStart + 1
  }

  /** The sanity line: spend so far, spread over the whole period. */
  function NaiveRunRate(spent: int, elapsed: int, inPeriod: int): Option<int> {
    if elapsed > 0 then Some(JsRound(spent as real / elapsed as real * inPeriod as real)) else None
  }

  function Refusal(input: ForecastInput, spendToDate: int, historyDays: nat): SpendForecast {
    var daysInPeriod := input.periodEnd - input.periodStart + 1;
    SpendForecast(InsufficientHistory, None, None, None, None, spendToDate,
      DaysElapsed(input), daysInPeriod, daysInPeriod - DaysElapsed(input), historyDays, None, None,
      seq(7, _ => None), None, BreachForecast(CannotProject, None, None, None, input.budgetMicroUsd), [])
  }

  function Projection(input: ForecastInput, basis: Basis, historyDays: nat, sqrt: real -> real): SpendForecast
    requires basis.Valid()
  {
    var points := basis.Burndown(sqrt);
    var last := points[|points| - 1];
    var elapsed, inPeriod, spent := DaysElapsed(input), basis.DaysInPeriod(), basis.SpendToDate();
    SpendForecast(Projected, Some(last.projectedMicroUsd), Some(last.lowMicroUsd), Some(last.highMicroUsd),
      NaiveRunRate(spent, elapsed, inPeriod),
      spent, elapsed, inPeriod, inPeriod - elapsed, historyDays,
      Some(basis.window[0].date), Some(basis.window[|basis.window| - 1].date),
      seq(7, weekday => WeekdayMedian(basis.window, weekday)), Some(basis.stdDev),
      Breach(points, input.budgetMicroUsd, input.periodStart), points)
  }

  function ForecastOf(input: ForecastInput, sqrt: real -> real): Result<SpendForecast, ForecastError> {
    var problem := FirstProblem(input);
    if problem.Some? then Err(problem.value)
    else
      var basis, historyDays := BasisOf(input, sqrt), |Settled(input)|;
      if historyDays < MIN_HISTORY_DAYS then Ok(Refusal(input, basis.SpendToDate(), historyDays))
      else Ok(Projection(input, basis, historyDays, sqrt))
  }

  // ---- The engine, as its loops run ----

  lemma {:induction false} FilterOneMore(before: seq<DailySpend>, d: DailySpend, p: DailySpend -> bool)
    ensures Filter(before + [d], p) == Filter(before, p) + if p(d) then [d] else []
  {
    FilterConcat(before, [d], p);
  }

  method CollectSettled(input: ForecastInput) returns (r: Result<seq<DailySpend>, ForecastError>)
    ensures var problem := ScanDays(input.days, {});
      r == if problem.Some? then Err(problem.value) else Ok(Filter(input.days, UpTo(input.asOf)))
  {
    var seen: set<int> := {};
    var settled: seq<DailySpend> := [];
    assert settled == Filter(input.days[..0], UpTo(input.asOf));
    hide Filter, IsSafeInteger;
    for i := 0 to |input.days|
      invariant ScanDays(input.days[i..], seen) == ScanDays(input.days, {})
      invariant settled == Filter(input.days[..i], UpTo(input.asOf))
    {
      var d := input.days[i];
      assert input.days[i..][1..] == input.days[i + 1..];
      if !IsSafeInteger(d.microUsd) {
        return Err(UnsafeDay(d.date));
      }
      if d.date in seen {
        return Err(DuplicateDay(d.date));
      }
      seen := seen + {d.date};
      if d.date <= input.asOf {
        settled := settled + [d];
      }
      assert input.days[..i + 1] == input.days[..i] + [d];
      FilterOneMore(input.days[..i], d, UpTo(input.asOf));
    }
    assert input.days[..|input.days|] == input.days;
    r := Ok(settled);
  }

  method WeekdayProfile(window: seq<DailySpend>) returns (profile: seq<Option<int>>)
    ensures profile == seq(7, weekday => WeekdayMedian(window, weekday))
  {
    var buckets: seq<seq<int>> := seq(7, _ => []);
    for i := 0 to |window|
      invariant |buckets| == 7
      invariant forall w :: 0 <= w < 7 ==> buckets[w] == Bucket(window[..i], w)
    {
      var s := window[i];
      WeekdayAdvances(s.date);
      var weekday := WeekdayOf(s.date);
      forall w | 0 <= w < 7
        ensures Bucket(window[..i + 1], w) == Bucket(window[..i], w) + if w == weekday then [s.microUsd] else []
      {
        assert window[..i + 1] == window[..i] + [s];
        FilterOneMore(window[..i], s, OnWeekday(w));
      }
      buckets := buckets[weekday := buckets[weekday] + [s.microUsd]];
    }
    assert window[..|window|] == window;
    profile := seq(7, w requires 0 <= w < 7 && |buckets| == 7 =>
      if buckets[w] == [] then None else Some(Median(buckets[w])));
  }

  method IndexByDay(inPeriod: seq<DailySpend>) returns (byDay: map<int, int>)
    ensures forall day :: AmountOn(inPeriod, day) == if day in byDay then byDay[day] else 0
  {
    byDay := map[];
    for i := 0 to |inPeriod|
      invariant forall day :: AmountOn(inPeriod[..i], day) == if day in byDay then byDay[day] else 0
    {
      byDay := byDay[inPeriod[i].date := inPeriod[i].microUsd];
      assert inPeriod[..i + 1][..i] == inPeriod[..i];
    }
    assert inPeriod[..|inPeriod|] == inPeriod;
  }

  method DrawBurndown(basis: Basis, profile: seq<Option<int>>, byDay: map<int, int>, sqrt: real -> real)
      returns (burndown: seq<BurndownPoint>)
    requires basis.Valid()
    requires profile == seq(7, weekday => WeekdayMedian(basis.window, weekday))
    requires forall day :: AmountOn(basis.inPeriod, day) == if day in byDay then byDay[day] else 0
    ensures burndown == basis.Burndown(sqrt)
  {
    hide BandHalfWidth, Median, WeekdayOf, WeekdayMedian, AmountOn, SumBy;
    var overallMedian := Median(Map(basis.window, Amount));
    var spendToDate := basis.SpendToDate();
    var cumulative := 0;
    burndown := [];
    for day := basis.periodStart to basis.periodEnd + 1
      invariant |burndown| == day - basis.periodStart
      invariant cumulative == basis.Cumulative(day - 1)
      invariant forall k :: 0 <= k < |burndown| ==> burndown[k] == basis.Point(basis.periodStart + k, sqrt)
    {
      if day <= basis.asOf {
        cumulative := cumulative + if day in byDay then byDay[day] else 0;
        burndown := burndown + [BurndownPoint(day, Some(cumulative), cumulative, cumulative, cumulative)];
      } else {
        WeekdayAdvances(day);
        var own := profile[WeekdayOf(day)];
        cumulative := cumulative + if own.Some? then own.value else overallMedian;
        var daysAhead := day - Max(basis.asOf, basis.periodStart - 1);
        var half := BandHalfWidth(basis.stdDev, daysAhead, basis.DaysInPeriod(), sqrt);
        var point := cumulative;
        burndown := burndown + [BurndownPoint(day, None, point, Min(point, Max(point - half, spendToDate)),
                                              point + half)];
      }
    }
  }

  method BreachFrom(points: seq<BurndownPoint>, budget: Option<int>, periodStart: int) returns (r: BreachForecast)
    ensures r == Breach(points, budget, periodStart)
  {
    hide FirstReach;
    if budget.None? {
      return BreachForecast(NoBudget, None, None, None, None);
    }
    var date, dayIndex, earliestDate: Option<int> := None, None, None;
    ghost var early: nat := 0;
    var i := 0;
    while i < |points|
      invariant 0 <= i <= |points| && date.None? && dayIndex.None?
      invariant forall j :: 0 <= j < i ==> points[j].projectedMicroUsd < budget.value
      invariant earliestDate.None? ==> forall j :: 0 <= j < i ==> points[j].highMicroUsd < budget.value
      invariant earliestDate.Some? ==> early < i && earliestDate.value == points[early].date
      invariant earliestDate.Some? ==> points[early].highMicroUsd >= budget.value
      invariant earliestDate.Some? ==> forall j :: 0 <= j < early ==> points[j].highMicroUsd < budget.value
    {
      var p := points[i];
      if earliestDate.None? && p.highMicroUsd >= budget.value {
        earliestDate := Some(p.date);
        early := i;
      }
      if p.projectedMicroUsd >= budget.value {
        date, dayIndex := Some(p.date), Some(p.date - periodStart + 1);
        break;
      }
      i := i + 1;
    }
    r := BreachForecast(if date.None? then Never else Breaches, date, dayIndex, earliestDate, budget);
  }

  lemma {:induction false} WindowNonEmpty(input: ForecastInput)
    requires |Settled(input)| >= MIN_HISTORY_DAYS
    ensures Trailing(Settled(input)) != []
  {
  }

  method ForecastSpend(input: ForecastInput, sqrt: real -> real) returns (r: Result<SpendForecast, ForecastError>)
    ensures r == ForecastOf(input, sqrt)
  {
    hide Median, WeekdayMedian, BandHalfWidth, SampleStdDev, Breach, ScanDays, SumBy, NaiveRunRate, AmountOn, JsRound;
    hide Sort, Filter, Trailing, DaysElapsed, Basis.Burndown, Basis.Point;
    if input.periodEnd < input.periodStart {
      return Err(PeriodInverted);
    }
    var asOf := Min(input.asOf, input.periodEnd);
    if input.budgetMicroUsd.Some? && !IsSafeInteger(input.budgetMicroUsd.value) {
      return Err(UnsafeBudget);
    }
    var collected := CollectSettled(input);
    if collected.Err? {
      return Err(collected.error);
    }
    var byDate := ArrayOf(collected.value);
    SortInPlace(byDate, EarlierFirst);
    var settled := byDate[..];
    var inPeriod := Filter(settled, Within(input.periodStart, asOf));
    var spendToDate := SumBy(inPeriod, Amount);
    if |settled| < MIN_HISTORY_DAYS {
      return Ok(Refusal(input, spendToDate, |settled|));
    }
    WindowNonEmpty(input);
    var window := Trailing(settled);
    var profile := WeekdayProfile(window);
    var stdDev := JsRound(SampleStdDev(Map(window, Amount), sqrt));
    var byDay := IndexByDay(inPeriod);
    var basis := Basis(input.periodStart, input.periodEnd, asOf, inPeriod, window, stdDev);
    var burndown := DrawBurndown(basis, profile, byDay, sqrt);
    var last := burndown[|burndown| - 1];
    var daysElapsed, daysInPeriod := DaysElapsed(input), basis.DaysInPeriod();
    var naive := NaiveRunRate(spendToDate, daysElapsed, daysInPeriod);
    var breach := BreachFrom(burndown, input.budgetMicroUsd, input.periodStart);
    r := Ok(SpendForecast(Projected, Some(last.projectedMicroUsd), Some(last.lowMicroUsd), Some(last.highMicroUsd),
                          naive,
      spendToDate, daysElapsed, daysInPeriod, daysInPeriod - daysElapsed, |settled|,
      Some(window[0].date), Some(window[|window| - 1].date), profile, Some(stdDev), breach, burndown));
  }
}
