/** The shared-cost allocation engine (web/lib/allocation.ts): a largest-remainder split of one
    tenant-level amount over the accounts, in exact integer micro-USD. */
module Allocation {
  import opened Money
  import opened Results
  import opened Sums
  import opened Sorting

  type Positive = n: int | n > 0 witness 1

  /** `amount` carrying the sign of `total`. */
  function Signed(total: int, amount: int): int {
    if total < 0 then -amount else amount
  }

  // ---- The split, as a function ----

  datatype Remainder = Remainder(index: nat, remainder: nat)

  /** Larger remainder first, input order between equals (the comparator at lines 209-212). */
  predicate RanksBefore(a: Remainder, b: Remainder) {
    a.remainder > b.remainder || (a.remainder == b.remainder && a.index <= b.index)
  }

  function WeightTotal(weights: seq<nat>): (total: nat)
    ensures forall i :: 0 <= i < |weights| ==> weights[i] <= total
  {
    if weights == [] then 0 else weights[0] + WeightTotal(weights[1..])
  }

  function Floors(magnitude: nat, weights: seq<nat>, whole: Positive): (r: seq<int>)
    ensures |r| == |weights|
  {
    seq(|weights|, i requires 0 <= i < |weights| => magnitude * weights[i] / whole)
  }

  function Rests(magnitude: nat, weights: seq<nat>, whole: Positive): (r: seq<nat>)
    ensures |r| == |weights|
    ensures forall i :: 0 <= i < |r| ==> r[i] < whole
  {
    seq(|weights|, i requires 0 <= i < |weights| => magnitude * weights[i] % whole)
  }

  function Remainders(rests: seq<nat>): seq<Remainder> {
    seq(|rests|, i requires 0 <= i < |rests| => Remainder(i, rests[i]))
  }

  function Ranking(rests: seq<nat>): (r: seq<Remainder>)
    ensures |r| == |rests|
    ensures forall j :: 0 <= j < |r| ==> r[j].index < |rests|
  {
    RankingEntries(rests);
    Sort(Remainders(rests), RanksBefore)
  }

  /** One extra unit for each of the first `k` entries of the ranking. */
  function Bonus(n: nat, ranking: seq<Remainder>, k: nat): (r: seq<int>)
    requires k <= |ranking| && forall j :: 0 <= j < |ranking| ==> ranking[j].index < n
    ensures |r| == n
  {
    if k == 0 then Zeros(n)
    else
      var before := Bonus(n, ranking, k - 1);
      before[ranking[k - 1].index := before[ranking[k - 1].index] + 1]
  }

  function Zeros(n: nat): (r: seq<int>)
    ensures |r| == n && forall i :: 0 <= i < n ==> r[i] == 0
  {
    seq(n, i => 0)
  }

  /** Who gets one of the `left` leftover units, as a vector of zeros and ones. */
  function Extra(rests: seq<nat>, left: nat): (r: seq<int>)
    requires left <= |rests|
    ensures |r| == |rests|
  {
    Bonus(|rests|, Ranking(rests), left)
  }

  function Leftover(magnitude: nat, weights: seq<nat>): (left: nat)
    requires WeightTotal(weights) > 0
    ensures left < |weights|
  {
    LeftoverBounds(magnitude, weights);
    magnitude - Ints(Floors(magnitude, weights, WeightTotal(weights)))
  }

  /** Floor plus extra unit for every account, with the sign of the total put back. */
  function SharesFrom(total: int, floors: seq<int>, extra: seq<int>): (shares: seq<int>)
    requires |extra| == |floors|
    ensures |shares| == |floors|
    ensures forall i :: 0 <= i < |floors| ==> shares[i] == Signed(total, floors[i] + extra[i])
  {
    seq(|floors|, i requires 0 <= i < |floors| => Signed(total, floors[i] + extra[i]))
  }

  /** `largestRemainder(total, weights)`. */
  function Split(total: int, weights: seq<nat>): (shares: seq<int>)
    ensures |shares| == |weights|
  {
    var magnitude, whole := Abs(total), WeightTotal(weights);
    if total == 0 || whole == 0 then Zeros(|weights|)
    else
      SharesFrom(total, Floors(magnitude, weights, whole),
                 Extra(Rests(magnitude, weights, whole), Leftover(magnitude, weights)))
  }

  // ---- Quotients, remainders and the ranking ----

  lemma {:induction false} Distribute(a: int, b: int, c: int)
    ensures a * (b + c) == a * b + a * c
  {
  }

  lemma {:induction false} DivMod(x: nat, whole: Positive)
    ensures x == whole * (x / whole) + x % whole
    ensures 0 <= x % whole < whole
  {
  }

  lemma {:induction false} MulMonotone(a: nat, k: int, n: int)
    requires k <= n
    ensures a * k <= a * n
  {
  }

  /** `a * k < a * n` only when `k < n`, for non-negative `a`. */
  lemma {:induction false} Cancel(a: nat, k: int, n: int)
    requires a * k < a * n
    ensures k < n
  {
    if n <= k {
      MulMonotone(a, n, k);
    }
  }

  lemma {:induction false} DivideEach(magnitude: nat, weights: seq<nat>, whole: Positive)
    ensures magnitude * WeightTotal(weights)
         == whole * Ints(Floors(magnitude, weights, whole)) + Ints(Rests(magnitude, weights, whole))
  {
    if weights != [] {
      var w, tail := weights[0], weights[1..];
      DivideEach(magnitude, tail, whole);
      DivMod(magnitude * w, whole);
      Distribute(magnitude, w, WeightTotal(tail));
      assert Floors(magnitude, weights, whole)[1..] == Floors(magnitude, tail, whole);
      assert Rests(magnitude, weights, whole)[1..] == Rests(magnitude, tail, whole);
      Distribute(whole, magnitude * w / whole, Ints(Floors(magnitude, tail, whole)));
    }
  }

  lemma {:induction false} RestBounds(rests: seq<nat>, whole: Positive)
    requires forall i :: 0 <= i < |rests| ==> rests[i] < whole
    ensures 0 <= Ints(rests) <= whole * |rests|
    ensures rests != [] ==> Ints(rests) < whole * |rests|
  {
    if rests != [] {
      RestBounds(rests[1..], whole);
      Distribute(whole, 1, |rests[1..]|);
    }
  }

  lemma {:induction false} LeftoverArithmetic(magnitude: nat, whole: Positive, floors: int, rests: int, n: nat)
    requires magnitude * whole == whole * floors + rests
    requires 0 <= rests < whole * n
    ensures whole * (magnitude - floors) == rests
    ensures 0 <= magnitude - floors < n
  {
    Distribute(whole, floors, magnitude - floors);
    Cancel(whole, -1, magnitude - floors);
    Cancel(whole, magnitude - floors, n);
  }

  /** The leftover units are exactly what the remainders add up to, and there are fewer of them than
      accounts, which is why the hand-out loop always has someone to give a unit to. */
  lemma {:induction false} LeftoverBounds(magnitude: nat, weights: seq<nat>)
    requires WeightTotal(weights) > 0
    ensures var whole := WeightTotal(weights);
      var left := magnitude - Ints(Floors(magnitude, weights, whole));
      whole * left == Ints(Rests(magnitude, weights, whole)) && 0 <= left < |weights|
  {
    var whole := WeightTotal(weights);
    DivideEach(magnitude, weights, whole);
    RestBounds(Rests(magnitude, weights, whole), whole);
    LeftoverArithmetic(magnitude, whole, Ints(Floors(magnitude, weights, whole)),
                       Ints(Rests(magnitude, weights, whole)), |weights|);
  }

  lemma {:induction false} RanksBeforeIsTotal()
    ensures TotalPreorder(RanksBefore)
  {
  }

  lemma {:induction false} RankingEntries(rests: seq<nat>)
    ensures var ranking := Sort(Remainders(rests), RanksBefore);
      && |ranking| == |rests|
      && (forall r :: r in ranking <==> r.index < |rests| && r == Remainder(r.index, rests[r.index]))
      && (forall j :: 0 <= j < |ranking| ==> ranking[j].index < |rests|)
  {
    var given, ranking := Remainders(rests), Sort(Remainders(rests), RanksBefore);
    SortPermutes(given, RanksBefore);
    SortMembers(given, RanksBefore);
    forall r ensures r in given <==> r.index < |rests| && r == Remainder(r.index, rests[r.index]) {
      if r in given {
        var i :| 0 <= i < |given| && given[i] == r;
      } else if r.index < |rests| {
        assert given[r.index] in given;
      }
    }
    forall j | 0 <= j < |ranking| ensures ranking[j].index < |rests| {
      assert ranking[j] in ranking;
    }
  }

  /** No account appears twice in the ranking, so no unit lands twice. */
  lemma {:induction false} RankingDistinct(rests: seq<nat>)
    ensures var ranking := Ranking(rests);
      forall a, b :: 0 <= a < b < |ranking| ==> ranking[a].index != ranking[b].index
  {
    var given, ranking := Remainders(rests), Ranking(rests);
    SortPermutes(given, RanksBefore);
    DistinctPermutation(given, ranking);
    RankingEntries(rests);
    forall a, b | 0 <= a < b < |ranking| ensures ranking[a].index != ranking[b].index {
      assert ranking[a] in ranking && ranking[b] in ranking;
    }
  }

  lemma {:induction false} BonusSum(n: nat, ranking: seq<Remainder>, k: nat)
    requires k <= |ranking| && forall j :: 0 <= j < |ranking| ==> ranking[j].index < n
    ensures Ints(Bonus(n, ranking, k)) == k
  {
    if k == 0 {
      SumZero(Zeros(n), (x: int) => x);
    } else {
      BonusSum(n, ranking, k - 1);
      var before, i := Bonus(n, ranking, k - 1), ranking[k - 1].index;
      SumUpdate(before, i, before[i] + 1);
    }
  }

  ghost predicate Chosen(ranking: seq<Remainder>, k: nat, i: int)
    requires k <= |ranking|
  {
    exists j :: 0 <= j < k && ranking[j].index == i
  }

  lemma {:induction false} BonusAt(n: nat, ranking: seq<Remainder>, k: nat, i: nat)
    requires k <= |ranking| && i < n && forall j :: 0 <= j < |ranking| ==> ranking[j].index < n
    requires forall a, b :: 0 <= a < b < |ranking| ==> ranking[a].index != ranking[b].index
    ensures Bonus(n, ranking, k)[i] == if Chosen(ranking, k, i) then 1 else 0
  {
    if k > 0 {
      BonusAt(n, ranking, k - 1, i);
      if ranking[k - 1].index == i {
        assert !Chosen(ranking, k - 1, i);
      } else if Chosen(ranking, k, i) {
        assert Chosen(ranking, k - 1, i);
      }
    }
  }

  predicate Outranks(rests: seq<nat>, i: nat, j: nat)
    requires i < |rests| && j < |rests|
  {
    rests[i] > rests[j] || (rests[i] == rests[j] && i < j)
  }

  /** What the ranking decides, without mentioning the ranking: exactly `left` accounts get a unit,
      and whoever gets one had a larger remainder (or an equal one and an earlier place) than whoever
      does not. */
  lemma {:induction false} ExtraGoesToLargestRemainders(rests: seq<nat>, left: nat)
    requires left <= |rests|
    ensures var extra := Extra(rests, left);
      && Ints(extra) == left
      && (forall i :: 0 <= i < |rests| ==> extra[i] == 0 || extra[i] == 1)
      && (forall i, j :: 0 <= i < |rests| && 0 <= j < |rests| && extra[i] == 1 && extra[j] == 0 ==>
           Outranks(rests, i, j))
  {
    var ranking, extra := Ranking(rests), Extra(rests, left);
    RankingEntries(rests);
    RankingDistinct(rests);
    BonusSum(|rests|, ranking, left);
    forall i | 0 <= i < |rests| ensures extra[i] == if Chosen(ranking, left, i) then 1 else 0 {
      BonusAt(|rests|, ranking, left, i);
    }
    RanksBeforeIsTotal();
    SortSorts(Remainders(rests), RanksBefore);
    forall i, j | 0 <= i < |rests| && 0 <= j < |rests| && extra[i] == 1 && extra[j] == 0 ensures Outranks(rests, i, j) {
      assert Remainder(j, rests[j]) in ranking;
      var a :| 0 <= a < left && ranking[a].index == i;
      var b :| 0 <= b < |ranking| && ranking[b] == Remainder(j, rests[j]);
      assert ranking[a] in ranking;
      assert a < b;
    }
  }

  /** The extra units the split really hands out. */
  function ExtraOf(magnitude: nat, weights: seq<nat>): (r: seq<int>)
    requires WeightTotal(weights) > 0
    ensures |r| == |weights|
  {
    Extra(Rests(magnitude, weights, WeightTotal(weights)), Leftover(magnitude, weights))
  }

  lemma {:induction false} RestsOnlyWhereExtra(rests: seq<nat>, extra: seq<int>, whole: Positive)
    requires |rests| == |extra|
    requires forall k :: 0 <= k < |rests| ==>
      (extra[k] == 0 && rests[k] == 0) || (extra[k] == 1 && rests[k] < whole)
    ensures Ints(rests) <= (whole - 1) * Ints(extra)
  {
    if rests != [] {
      RestsOnlyWhereExtra(rests[1..], extra[1..], whole);
      Distribute(whole - 1, extra[0], Ints(extra[1..]));
    }
  }

  lemma {:induction false} UnpaidUnits(whole: int, left: int)
    requires left > 0
    ensures (whole - 1) * left < whole * left
  {
    Distribute(left, whole - 1, 1);
  }

  lemma {:induction false} OnePositiveTerm(extra: seq<int>, i: nat)
    requires i < |extra| && extra[i] > 0
    requires forall k :: 0 <= k < |extra| ==> extra[k] >= 0
    ensures Ints(extra) > 0
  {
    var f := (x: int) => x;
    SumWithout(extra, i, f);
    SumAtMost(Without(extra, i), (x: int) => 0, f);
    SumZero(Without(extra, i), (x: int) => 0);
  }

  /** An account whose exact share is already whole gets no extra unit: if it did, every account
      without one would have a zero remainder too, and the remainders could not pay for the units. */
  lemma {:induction false} NoBonusForWholeShares(rests: seq<nat>, left: nat, whole: Positive, i: nat)
    requires left <= |rests| && i < |rests| && rests[i] == 0
    requires forall k :: 0 <= k < |rests| ==> rests[k] < whole
    requires Ints(rests) == whole * left
    ensures Extra(rests, left)[i] == 0
  {
    var extra := Extra(rests, left);
    ExtraGoesToLargestRemainders(rests, left);
    if extra[i] == 1 {
      assert forall k :: 0 <= k < |rests| && extra[k] == 0 ==> Outranks(rests, i, k);
      RestsOnlyWhereExtra(rests, extra, whole);
      OnePositiveTerm(extra, i);
      UnpaidUnits(whole, left);
    }
  }

  // ---- What the split guarantees ----

  lemma {:induction false} SumOfShares(total: int, floors: seq<int>, extra: seq<int>)
    requires |floors| == |extra|
    ensures Ints(SharesFrom(total, floors, extra)) == Signed(total, Ints(floors) + Ints(extra))
  {
    if floors != [] {
      SumOfShares(total, floors[1..], extra[1..]);
      assert SharesFrom(total, floors, extra)[1..] == SharesFrom(total, floors[1..], extra[1..]);
    }
  }

  /** The invariant of the module: the shares sum exactly to the total. Only an all-zero weight list
      has nowhere to put it, and then every share is zero. */
  lemma {:induction false} SplitSumsToTotal(total: int, weights: seq<nat>)
    ensures Ints(Split(total, weights)) == if WeightTotal(weights) > 0 then total else 0
  {
    var magnitude, whole := Abs(total), WeightTotal(weights);
    if total == 0 || whole == 0 {
      SumZero(Split(total, weights), (x: int) => x);
    } else {
      ExtraGoesToLargestRemainders(Rests(magnitude, weights, whole), Leftover(magnitude, weights));
      SumOfShares(total, Floors(magnitude, weights, whole), ExtraOf(magnitude, weights));
    }
  }

  /** A credit is split exactly as the same bill would be, with every sign turned. */
  lemma {:induction false} SplitOfCredit(total: int, weights: seq<nat>, i: nat)
    requires i < |weights|
    ensures Split(-total, weights)[i] == -Split(total, weights)[i]
  {
    assert Abs(-total) == Abs(total);
  }

  /** How far an account's share falls short of what it deserved, in units of 1 / whole. */
  function Residual(total: int, weight: int, whole: int, share: int): int {
    total * weight - whole * share
  }

  lemma {:induction false} ResidualArithmetic(total: int, weight: int, whole: int, base: int, rest: int, extra: int)
    requires Abs(total) * weight == whole * base + rest
    ensures Residual(total, weight, whole, Signed(total, base + extra)) == Signed(total, rest - whole * extra)
  {
    Distribute(whole, base, extra);
    if total < 0 {
      assert total * weight == -(Abs(total) * weight);
      assert whole * -(base + extra) == -(whole * (base + extra));
    }
  }

  /** One account's part of the split: its floor, its remainder and its extra unit. */
  datatype Part = Part(base: int, rest: nat, extra: int)

  ghost predicate ValidPart(p: Part, magnitude: nat, weight: nat, whole: Positive) {
    && magnitude * weight == whole * p.base + p.rest && p.rest < whole
    && (p.extra == 0 || (p.extra == 1 && p.rest > 0))
  }

  function PartOf(magnitude: nat, weights: seq<nat>, i: nat): Part
    requires WeightTotal(weights) > 0 && i < |weights|
  {
    var whole := WeightTotal(weights);
    Part(Floors(magnitude, weights, whole)[i], Rests(magnitude, weights, whole)[i], ExtraOf(magnitude, weights)[i])
  }

  lemma {:induction false} QuotientAndRest(magnitude: nat, weights: seq<nat>, whole: Positive, i: nat)
    requires i < |weights|
    ensures magnitude * weights[i] == whole * Floors(magnitude, weights, whole)[i] + Rests(magnitude, weights, whole)[i]
  {
    DivMod(magnitude * weights[i], whole);
  }

  lemma {:induction false} PartIsValid(magnitude: nat, weights: seq<nat>, i: nat)
    requires WeightTotal(weights) > 0 && i < |weights|
    ensures ValidPart(PartOf(magnitude, weights, i), magnitude, weights[i], WeightTotal(weights))
  {
    hide Extra;
    var whole := WeightTotal(weights);
    var rests, left := Rests(magnitude, weights, whole), Leftover(magnitude, weights);
    QuotientAndRest(magnitude, weights, whole, i);
    hide Rests, Floors;
    ExtraGoesToLargestRemainders(rests, left);
    LeftoverBounds(magnitude, weights);
    if rests[i] == 0 {
      NoBonusForWholeShares(rests, left, whole, i);
    }
  }

  lemma {:induction false} PartsInOrder(magnitude: nat, weights: seq<nat>, i: nat, j: nat)
    requires WeightTotal(weights) > 0 && i < |weights| && j < |weights|
    ensures var p, q := PartOf(magnitude, weights, i), PartOf(magnitude, weights, j);
      p.extra > q.extra ==> p.rest > q.rest || (p.rest == q.rest && i < j)
  {
    hide Rests, Floors, Leftover, Extra, WeightTotal;
    ExtraGoesToLargestRemainders(Rests(magnitude, weights, WeightTotal(weights)), Leftover(magnitude, weights));
  }

  ghost predicate WithinOneUnit(whole: int, a: int, b: int) {
    Abs(a) < whole && Abs(b) < whole && Abs(a - b) <= whole
  }

  lemma {:induction false} PairedResiduals(total: int, whole: Positive, wi: nat, p: Part, wj: nat, q: Part)
    requires ValidPart(p, Abs(total), wi, whole) && ValidPart(q, Abs(total), wj, whole)
    requires (p.extra > q.extra ==> p.rest >= q.rest) && (q.extra > p.extra ==> q.rest >= p.rest)
    ensures WithinOneUnit(whole, Residual(total, wi, whole, Signed(total, p.base + p.extra)),
                                 Residual(total, wj, whole, Signed(total, q.base + q.extra)))
  {
    ResidualArithmetic(total, wi, whole, p.base, p.rest, p.extra);
    ResidualArithmetic(total, wj, whole, q.base, q.rest, q.extra);
  }

  lemma {:induction false} ShareOfPart(total: int, weights: seq<nat>, i: nat)
    requires WeightTotal(weights) > 0 && i < |weights| && total != 0
    ensures var p := PartOf(Abs(total), weights, i);
      Split(total, weights)[i] == Signed(total, p.base + p.extra)
  {
    hide Floors, Rests, Leftover, Extra;
  }

  /** Any two accounts' residuals are within one whole unit of each other. This is what the ranking
      buys, and it is all that optimality needs. */
  lemma {:induction false} ResidualsBalanced(total: int, weights: seq<nat>, i: nat, j: nat)
    requires WeightTotal(weights) > 0 && i < |weights| && j < |weights| && total != 0
    ensures var whole, shares := WeightTotal(weights), Split(total, weights);
      WithinOneUnit(whole, Residual(total, weights[i], whole, shares[i]),
                           Residual(total, weights[j], whole, shares[j]))
  {
    hide Floors, Rests, Leftover, Extra, ValidPart, Residual, WithinOneUnit, Split, PartOf;
    var magnitude := Abs(total);
    ShareOfPart(total, weights, i);
    ShareOfPart(total, weights, j);
    PartIsValid(magnitude, weights, i);
    PartIsValid(magnitude, weights, j);
    PartsInOrder(magnitude, weights, i, j);
    PartsInOrder(magnitude, weights, j, i);
    PairedResiduals(total, WeightTotal(weights), weights[i], PartOf(magnitude, weights, i),
                    weights[j], PartOf(magnitude, weights, j));
  }

  lemma {:induction false} BetweenFloorAndCeiling(exact: int, whole: int, share: int)
    requires whole > 0 && Abs(exact - whole * share) < whole
    ensures exact / whole <= share <= -((-exact) / whole)
    ensures exact == 0 ==> share == 0
  {
    var q, c := exact / whole, (-exact) / whole;
    Distribute(whole, share, 1);
    Cancel(whole, q, share + 1);
    Distribute(whole, -share, 1);
    Cancel(whole, c, -share + 1);
  }

  lemma {:induction false} ShareAtMostTotal(total: int, weight: nat, whole: int, share: int)
    requires weight <= whole && 0 < whole && Abs(total * weight - whole * share) < whole
    ensures Abs(share) <= Abs(total)
  {
    var bound: nat := Abs(total);
    MulMonotone(bound, weight, whole);
    assert total * weight <= bound * weight && -(total * weight) <= bound * weight by {
      if total < 0 {
        assert total * weight == -(bound * weight);
      }
    }
    Distribute(whole, bound, 1);
    Cancel(whole, share, bound + 1);
    assert whole * -share == -(whole * share);
    Cancel(whole, -share, bound + 1);
  }

  ghost predicate WithinQuota(exact: int, whole: Positive, share: int) {
    exact / whole <= share <= -((-exact) / whole)
  }

  /** Quota: every share is the floor or the ceiling of `total * weight / whole`. An account with no
      weight therefore gets exactly nothing, and no share exceeds the total. */
  lemma {:induction false} SplitWithinQuota(total: int, weights: seq<nat>, i: nat)
    requires WeightTotal(weights) > 0 && i < |weights|
    ensures WithinQuota(total * weights[i], WeightTotal(weights), Split(total, weights)[i])
    ensures weights[i] == 0 ==> Split(total, weights)[i] == 0
    ensures Abs(Split(total, weights)[i]) <= Abs(total)
  {
    if total != 0 {
      ResidualsBalanced(total, weights, i, i);
      QuotaArithmetic(total, weights[i], WeightTotal(weights), Split(total, weights)[i]);
    }
  }

  lemma {:induction false} QuotaArithmetic(total: int, weight: nat, whole: int, share: int)
    requires weight <= whole && 0 < whole && Abs(Residual(total, weight, whole, share)) < whole
    ensures WithinQuota(total * weight, whole, share)
    ensures weight == 0 ==> share == 0
    ensures Abs(share) <= Abs(total)
  {
    BetweenFloorAndCeiling(total * weight, whole, share);
    ShareAtMostTotal(total, weight, whole, share);
  }

  /** A larger weight has at least as large a floor, and the same floor only with a larger remainder. */
  lemma {:induction false} FloorsInOrder(m: int, whole: Positive, wi: nat, p: Part, wj: nat, q: Part)
    requires m > 0 && wi >= wj && ValidPart(p, m, wi, whole) && ValidPart(q, m, wj, whole)
    ensures p.base > q.base || (p.base == q.base && p.rest >= q.rest)
    ensures wi > wj && p.base == q.base ==> p.rest > q.rest
    ensures wi == wj ==> p.base == q.base && p.rest == q.rest
    ensures q.base >= 0
  {
    MulMonotone(m, wj, wi);
    Distribute(whole, p.base, 1);
    Cancel(whole, q.base, p.base + 1);
    MulMonotone(m, 0, wj);
    Distribute(whole, q.base, 1);
    Cancel(whole, 0, q.base + 1);
    if wi == wj {
      Cancel(whole, p.base, q.base + 1);
    } else if p.base == q.base {
      MulMonotone(m, 1, wi - wj);
      Distribute(m, wj, wi - wj);
    }
  }

  /** A larger weight never gets a smaller magnitude; equal weights differ by at most one unit, and
      the earlier account is the one that gets it. */
  lemma {:induction false} SplitIsFair(total: int, weights: seq<nat>, i: nat, j: nat)
    requires WeightTotal(weights) > 0 && i < |weights| && j < |weights|
    requires weights[i] > weights[j] || (weights[i] == weights[j] && i < j)
    ensures var shares := Split(total, weights);
      && Abs(shares[i]) >= Abs(shares[j])
      && (weights[i] == weights[j] ==> Abs(shares[i]) <= Abs(shares[j]) + 1)
  {
    if total != 0 {
      hide Floors, Rests, Leftover, Extra, Split, PartOf, WeightTotal;
      var magnitude := Abs(total);
      ShareOfPart(total, weights, i);
      ShareOfPart(total, weights, j);
      PartIsValid(magnitude, weights, i);
      PartIsValid(magnitude, weights, j);
      PartsInOrder(magnitude, weights, j, i);
      FloorsInOrder(magnitude, WeightTotal(weights), weights[i], PartOf(magnitude, weights, i),
                    weights[j], PartOf(magnitude, weights, j));
    }
  }

  // ---- Optimality ----

  /** What each account deserves: `total * weight / whole`, not rounded. */
  function ExactShares(total: int, weights: seq<nat>, whole: Positive): (r: seq<real>)
    ensures |r| == |weights|
  {
    seq(|weights|, i requires 0 <= i < |weights| => (total * weights[i]) as real / whole as real)
  }

  function Square(x: real): real {
    x * x
  }

  /** The total of the squared distances from the exact shares. */
  function SquaredError(exact: seq<real>, shares: seq<int>): real
    requires |exact| == |shares|
  {
    if exact == [] then 0.0 else Square(exact[0] - shares[0] as real) + SquaredError(exact[1..], shares[1..])
  }

  lemma {:induction false} RealProduct(a: real, b: real)
    requires (a >= 0.0 && b >= 0.0) || (a <= 0.0 && b <= 0.0)
    ensures a * b >= 0.0
  {
  }

  /** A multiplier argument, one account at a time: moving `d` units costs at least `1 - 2 * top` a
      unit, whichever way they move. */
  lemma {:induction false} MovingUnits(gap: real, top: real, d: int)
    requires gap <= top <= gap + 1.0
    ensures Square(gap - d as real) >= Square(gap) + (1.0 - 2.0 * top) * d as real
  {
    var r := d as real;
    var slack := r - 1.0 + 2.0 * (top - gap);
    if d != 0 {
      RealProduct(r, slack);
    }
    assert Square(gap - r) == Square(gap) + (1.0 - 2.0 * top) * r + r * slack;
  }

  lemma {:induction false} DistributeReal(price: real, a: real, b: real)
    ensures price * (a + b) == price * a + price * b
  {
  }

  /** Units moved, as a real number. */
  function Moved(shares: seq<int>, other: seq<int>): real
    requires |shares| == |other|
  {
    if shares == [] then 0.0 else (other[0] - shares[0]) as real + Moved(shares[1..], other[1..])
  }

  lemma {:induction false} MovedIsDifference(shares: seq<int>, other: seq<int>)
    requires |shares| == |other|
    ensures Moved(shares, other) == (Ints(other) - Ints(shares)) as real
  {
    if shares != [] {
      MovedIsDifference(shares[1..], other[1..]);
    }
  }

  lemma {:induction false} MovingCosts(exact: seq<real>, shares: seq<int>, other: seq<int>, top: real, price: real)
    requires |exact| == |shares| == |other| && price == 1.0 - 2.0 * top
    requires forall i :: 0 <= i < |exact| ==> exact[i] - shares[i] as real <= top <= exact[i] - shares[i] as real + 1.0
    ensures SquaredError(exact, other) >= SquaredError(exact, shares) + price * Moved(shares, other)
  {
    hide Square;
    if exact == [] {
      assert price * 0.0 == 0.0;
    } else {
      var gap, d := exact[0] - shares[0] as real, other[0] - shares[0];
      MovingUnits(gap, top, d);
      assert exact[0] - other[0] as real == gap - d as real;
      MovingCosts(exact[1..], shares[1..], other[1..], top, price);
      DistributeReal(price, d as real, Moved(shares[1..], other[1..]));
    }
  }

  lemma {:induction false} LargestGap(exact: seq<real>, shares: seq<int>) returns (top: nat)
    requires |exact| == |shares| && exact != []
    ensures top < |exact|
    ensures forall i :: 0 <= i < |exact| ==> exact[i] - shares[i] as real <= exact[top] - shares[top] as real
  {
    top := 0;
    for i := 0 to |exact|
      invariant top < |exact|
      invariant forall k :: 0 <= k < i ==> exact[k] - shares[k] as real <= exact[top] - shares[top] as real
    {
      if exact[i] - shares[i] as real > exact[top] - shares[top] as real {
        top := i;
      }
    }
  }

  lemma {:induction false} GapOfResidual(total: int, weight: int, whole: Positive, share: int)
    ensures Residual(total, weight, whole, share) as real
         == whole as real * ((total * weight) as real / whole as real - share as real)
  {
    var exact := (total * weight) as real / whole as real;
    assert whole as real * exact == (total * weight) as real;
    assert (whole * share) as real == whole as real * share as real;
  }

  lemma {:induction false} PositiveFactor(scale: real, x: real)
    requires scale > 0.0 && scale * x >= 0.0
    ensures x >= 0.0
  {
  }

  lemma {:induction false} CancelReal(scale: real, p: real, q: real, a: real, b: real)
    requires scale > 0.0 && p == scale * a && q == scale * b && p - q <= scale
    ensures a <= b + 1.0
  {
    DistributeReal(scale, b, 1.0 - a);
    DistributeReal(scale, 1.0, -a);
    assert scale * -a == -(scale * a);
    PositiveFactor(scale, b + (1.0 - a));
  }

  lemma {:induction false} ErrorNonNegative(exact: seq<real>, shares: seq<int>)
    requires |exact| == |shares|
    ensures SquaredError(exact, shares) >= 0.0
    ensures (forall i :: 0 <= i < |exact| ==> exact[i] == shares[i] as real) ==> SquaredError(exact, shares) == 0.0
  {
    if exact != [] {
      ErrorNonNegative(exact[1..], shares[1..]);
      RealProduct(exact[0] - shares[0] as real, exact[0] - shares[0] as real);
    }
  }

  lemma {:induction false} ZeroTotalIsOptimal(weights: seq<nat>, other: seq<int>)
    requires WeightTotal(weights) > 0 && |other| == |weights|
    ensures var exact := ExactShares(0, weights, WeightTotal(weights));
      SquaredError(exact, Split(0, weights)) <= SquaredError(exact, other)
  {
    var exact := ExactShares(0, weights, WeightTotal(weights));
    ErrorNonNegative(exact, other);
    ErrorNonNegative(exact, Split(0, weights));
  }

  /** Any shares whose gaps lie within one unit of the largest are at least as good as any other
      integer vector with the same sum. */
  lemma {:induction false} BalancedIsOptimal(exact: seq<real>, shares: seq<int>, other: seq<int>, k: nat)
    requires |exact| == |shares| == |other| && k < |exact| && Ints(other) == Ints(shares)
    requires forall i :: 0 <= i < |exact| ==>
      exact[i] - shares[i] as real <= exact[k] - shares[k] as real <= exact[i] - shares[i] as real + 1.0
    ensures SquaredError(exact, shares) <= SquaredError(exact, other)
  {
    var top := exact[k] - shares[k] as real;
    MovingCosts(exact, shares, other, top, 1.0 - 2.0 * top);
    MovedIsDifference(shares, other);
  }

  /** Optimality: of all the integer splits that reconcile, none has a smaller total of squared
      distances from the exact shares than the one `largestRemainder` returns. */
  lemma {:induction false} SplitIsOptimal(total: int, weights: seq<nat>, other: seq<int>)
    requires WeightTotal(weights) > 0 && |other| == |weights|
    requires Ints(other) == total
    ensures var exact := ExactShares(total, weights, WeightTotal(weights));
      SquaredError(exact, Split(total, weights)) <= SquaredError(exact, other)
  {
    hide SquaredError;
    if total == 0 {
      ZeroTotalIsOptimal(weights, other);
    } else {
      hide Split, ExactShares, WeightTotal;
      var shares := Split(total, weights);
      var exact := ExactShares(total, weights, WeightTotal(weights));
      var k := LargestGap(exact, shares);
      forall i | 0 <= i < |weights|
        ensures exact[k] - shares[k] as real <= exact[i] - shares[i] as real + 1.0
      {
        GapsBalanced(total, weights, i, k);
      }
      SplitSumsToTotal(total, weights);
      BalancedIsOptimal(exact, shares, other, k);
    }
  }

  lemma {:induction false} GapsArithmetic(total: int, wi: int, wk: int, whole: Positive, si: int, sk: int)
    requires Residual(total, wk, whole, sk) - Residual(total, wi, whole, si) <= whole
    ensures (total * wk) as real / whole as real - sk as real <= (total * wi) as real / whole as real - si as real + 1.0
  {
    var ri, rk := Residual(total, wi, whole, si), Residual(total, wk, whole, sk);
    GapOfResidual(total, wi, whole, si);
    GapOfResidual(total, wk, whole, sk);
    CancelReal(whole as real, rk as real, ri as real, (total * wk) as real / whole as real - sk as real,
               (total * wi) as real / whole as real - si as real);
  }

  lemma {:induction false} GapsBalanced(total: int, weights: seq<nat>, i: nat, k: nat)
    requires WeightTotal(weights) > 0 && i < |weights| && k < |weights| && total != 0
    ensures var exact, shares := ExactShares(total, weights, WeightTotal(weights)), Split(total, weights);
      exact[k] - shares[k] as real <= exact[i] - shares[i] as real + 1.0
  {
    var shares := Split(total, weights);
    ResidualsBalanced(total, weights, i, k);
    GapsArithmetic(total, weights[i], weights[k], WeightTotal(weights), shares[i], shares[k]);
  }

  lemma {:induction false} QuotientAt(magnitude: nat, weights: seq<nat>, whole: Positive, i: nat)
    requires i < |weights|
    ensures Floors(magnitude, weights, whole)[i] == magnitude * weights[i] / whole
    ensures Rests(magnitude, weights, whole)[i] == magnitude * weights[i] % whole
  {
  }

  // ---- `largestRemainder`, as the loops run ----

  lemma {:induction false} FloorPlusExtra(total: int, floors: seq<int>, extra: seq<int>, signedFloors: seq<int>,
                                          shares: seq<int>)
    requires |shares| == |signedFloors| == |extra| == |floors|
    requires forall k :: 0 <= k < |floors| ==> signedFloors[k] == Signed(total, floors[k])
    requires forall k :: 0 <= k < |floors| ==> shares[k] == signedFloors[k] + Signed(total, extra[k])
    ensures shares == SharesFrom(total, floors, extra)
  {
  }

  method TotalWeight(weights: seq<nat>) returns (weightTotal: nat)
    ensures weightTotal == WeightTotal(weights)
  {
    weightTotal := 0;
    for i := 0 to |weights|
      invariant weightTotal + WeightTotal(weights[i..]) == WeightTotal(weights)
    {
      assert weights[i..][1..] == weights[i + 1..];
      weightTotal := weightTotal + weights[i];
    }
  }

  method FloorShares(total: int, weights: seq<nat>, weightTotal: Positive, shares: array<int>)
      returns (remainders: seq<Remainder>, handedOut: int)
    requires shares.Length == |weights|
    modifies shares
    ensures remainders == Remainders(Rests(Abs(total), weights, weightTotal))
    ensures handedOut == Ints(Floors(Abs(total), weights, weightTotal))
    ensures forall k :: 0 <= k < |weights| ==> shares[k] == Signed(total, Floors(Abs(total), weights, weightTotal)[k])
  {
    hide Floors, Rests;
    ghost var floors, rests := Floors(Abs(total), weights, weightTotal), Rests(Abs(total), weights, weightTotal);
    remainders, handedOut := [], 0;
    for i := 0 to |weights|
      invariant |remainders| == i
      invariant forall k :: 0 <= k < i ==> remainders[k] == Remainder(k, rests[k])
      invariant forall k :: 0 <= k < i ==> shares[k] == Signed(total, floors[k])
      invariant handedOut == Ints(floors[..i])
    {
      var exact := Abs(total) * weights[i];
      var base := exact / weightTotal;
      QuotientAt(Abs(total), weights, weightTotal, i);
      shares[i] := Signed(total, base);
      handedOut := handedOut + base;
      remainders := remainders + [Remainder(i, exact % weightTotal)];
      SumSnoc(floors[..i + 1], (x: int) => x);
      assert floors[..i + 1][..i] == floors[..i];
    }
    assert floors[..|weights|] == floors;
  }

  method HandOutLeftover(total: int, remainders: seq<Remainder>, units: nat, shares: array<int>)
    requires forall j :: 0 <= j < |remainders| ==> remainders[j].index < shares.Length
    requires units <= |remainders|
    modifies shares
    ensures forall k :: 0 <= k < shares.Length ==>
      shares[k] == old(shares[k]) + Signed(total, Bonus(shares.Length, remainders, units)[k])
  {
    var leftover, j := units, 0;
    while j < |remainders| && leftover > 0
      invariant 0 <= j <= units && leftover == units - j
      invariant forall k :: 0 <= k < shares.Length ==>
        shares[k] == old(shares[k]) + Signed(total, Bonus(shares.Length, remainders, j)[k])
    {
      var index := remainders[j].index;
      shares[index] := shares[index] + Signed(total, 1);
      leftover := leftover - 1;
      j := j + 1;
    }
  }

  /** What the three loops leave is the split. */
  lemma {:induction false} SplitFromParts(total: int, weights: seq<nat>)
    requires total != 0 && WeightTotal(weights) > 0
    ensures var magnitude, whole := Abs(total), WeightTotal(weights);
      var ranking, left := Ranking(Rests(magnitude, weights, whole)), Leftover(magnitude, weights);
      && left == magnitude - Ints(Floors(magnitude, weights, whole)) && |ranking| == |weights|
      && Split(total, weights) ==
           SharesFrom(total, Floors(magnitude, weights, whole), Bonus(|weights|, ranking, left))
      && ranking == Sort(Remainders(Rests(magnitude, weights, whole)), RanksBefore)
  {
  }

  method LargestRemainder(total: int, weights: seq<nat>) returns (shares: array<int>)
    ensures fresh(shares)
    ensures shares[..] == Split(total, weights)
  {
    shares := new int[|weights|](_ => 0);
    var weightTotal := TotalWeight(weights);
    if total == 0 || weightTotal == 0 {
      assert shares[..] == Zeros(|weights|);
      return;
    }
    SplitFromParts(total, weights);
    hide Floors, Rests, Remainders, Sort, Split, Bonus, WeightTotal, Ranking, Leftover, Ints;
    var magnitude := Abs(total);
    var remainders, handedOut := FloorShares(total, weights, weightTotal, shares);
    var ranked := ArrayOf(remainders);
    SortInPlace(ranked, RanksBefore);
    remainders := ranked[..];
    ghost var signedFloors, left := shares[..], Leftover(magnitude, weights);
    HandOutLeftover(total, remainders, magnitude - handedOut, shares);
    FloorPlusExtra(total, Floors(magnitude, weights, weightTotal), Bonus(|weights|, remainders, left), signedFloors,
                   shares[..]);
  }

  // ---- `allocateShared` ----

  datatype AllocationRule = ProRataDirect | EvenSplit

  datatype AccountDirectSpend = AccountDirectSpend(accountId: string, directMicroUsd: int)

  datatype AccountAllocation = AccountAllocation(
    accountId: string, directMicroUsd: int, allocatedMicroUsd: int, totalMicroUsd: int)

  datatype AllocationResult = AllocationResult(
    rule: AllocationRule, effectiveRule: AllocationRule, accounts: seq<AccountAllocation>,
    sharedMicroUsd: int, allocatedTotalMicroUsd: int, unallocatedMicroUsd: int,
    directTotalMicroUsd: int, tenantTotalMicroUsd: int)

  datatype AllocationError = UnsafeShared | UnsafeDirect(accountId: string) | DuplicateAccount(accountId: string)

  const Direct: AccountDirectSpend -> int := (a: AccountDirectSpend) => a.directMicroUsd
  const Allocated: AccountAllocation -> int := (a: AccountAllocation) => a.allocatedMicroUsd
  const RowTotal: AccountAllocation -> int := (a: AccountAllocation) => a.totalMicroUsd
  const RowDirect: AccountAllocation -> int := (a: AccountAllocation) => a.directMicroUsd

  /** The first thing `allocateShared` would throw on, in the order it looks. */
  function FirstProblem(accounts: seq<AccountDirectSpend>, shared: int): Option<AllocationError> {
    if !IsSafeInteger(shared) then Some(UnsafeShared) else ScanAccounts(accounts, {})
  }

  function ScanAccounts(accounts: seq<AccountDirectSpend>, seen: set<string>): Option<AllocationError> {
    if accounts == [] then None
    else if !IsSafeInteger(accounts[0].directMicroUsd) then Some(UnsafeDirect(accounts[0].accountId))
    else if accounts[0].accountId in seen then Some(DuplicateAccount(accounts[0].accountId))
    else ScanAccounts(accounts[1..], seen + {accounts[0].accountId})
  }

  function ProRataWeights(accounts: seq<AccountDirectSpend>): (w: seq<nat>)
    ensures |w| == |accounts|
    ensures forall i :: 0 <= i < |w| ==> w[i] == if accounts[i].directMicroUsd > 0 then accounts[i].directMicroUsd
      else 0
  {
    seq(|accounts|, i requires 0 <= i < |accounts| =>
      if accounts[i].directMicroUsd > 0 then accounts[i].directMicroUsd else 0)
  }

  function EvenWeights(n: nat): (w: seq<nat>)
    ensures |w| == n && forall i :: 0 <= i < n ==> w[i] == 1
  {
    seq(n, _ => 1)
  }

  function EffectiveRule(accounts: seq<AccountDirectSpend>, rule: AllocationRule): AllocationRule {
    if rule == ProRataDirect && WeightTotal(ProRataWeights(accounts)) == 0 then EvenSplit else rule
  }

  function WeightsUnder(accounts: seq<AccountDirectSpend>, effective: AllocationRule): (w: seq<nat>)
    ensures |w| == |accounts|
  {
    if effective == ProRataDirect then ProRataWeights(accounts) else EvenWeights(|accounts|)
  }

  function AllocatedRows(accounts: seq<AccountDirectSpend>, shares: seq<int>): (rows: seq<AccountAllocation>)
    requires |shares| == |accounts|
    ensures |rows| == |accounts|
    ensures forall i :: 0 <= i < |rows| ==> rows[i] == AccountAllocation(accounts[i].accountId,
      accounts[i].directMicroUsd, shares[i], accounts[i].directMicroUsd + shares[i])
  {
    seq(|accounts|, i requires 0 <= i < |accounts| => AccountAllocation(accounts[i].accountId,
      accounts[i].directMicroUsd, shares[i], accounts[i].directMicroUsd + shares[i]))
  }

  /** `allocateShared`, as a function of its arguments. */
  function Allocate(accounts: seq<AccountDirectSpend>, shared: int, rule: AllocationRule):
      Result<AllocationResult, AllocationError>
  {
    var problem := FirstProblem(accounts, shared);
    if problem.Some? then Err(problem.value)
    else if accounts == [] then Ok(AllocationResult(rule, rule, [], shared, 0, shared, 0, shared))
    else
      var effective := EffectiveRule(accounts, rule);
      var rows := AllocatedRows(accounts, Split(shared, WeightsUnder(accounts, effective)));
      var directTotal := SumBy(accounts, Direct);
      Ok(AllocationResult(rule, effective, rows, shared, SumBy(rows, Allocated), 0, directTotal, directTotal + shared))
  }

  ghost predicate AcceptableInput(accounts: seq<AccountDirectSpend>, shared: int) {
    && IsSafeInteger(shared)
    && (forall i :: 0 <= i < |accounts| ==> IsSafeInteger(accounts[i].directMicroUsd))
    && (forall i, j :: 0 <= i < j < |accounts| ==> accounts[i].accountId != accounts[j].accountId)
  }

  lemma {:induction false} ScanFindsNothing(accounts: seq<AccountDirectSpend>, seen: set<string>)
    ensures ScanAccounts(accounts, seen).None? <==>
      && (forall i :: 0 <= i < |accounts| ==>
           IsSafeInteger(accounts[i].directMicroUsd) && accounts[i].accountId !in seen)
      && (forall i, j :: 0 <= i < j < |accounts| ==> accounts[i].accountId != accounts[j].accountId)
  {
    if accounts != [] {
      var a, rest := accounts[0], accounts[1..];
      ScanFindsNothing(rest, seen + {a.accountId});
      forall i | 0 <= i < |rest| ensures rest[i] == accounts[i + 1] {}
    }
  }

  /** It throws exactly on money that is not a safe integer and on a repeated account id. */
  lemma {:induction false} AllocateAcceptsExactly(accounts: seq<AccountDirectSpend>, shared: int, rule: AllocationRule)
    ensures Allocate(accounts, shared, rule).Ok? <==> AcceptableInput(accounts, shared)
  {
    ScanFindsNothing(accounts, {});
  }

  lemma {:induction false} WeightTotalZero(weights: seq<nat>)
    ensures WeightTotal(weights) == 0 <==> forall i :: 0 <= i < |weights| ==> weights[i] == 0
  {
    if weights != [] {
      WeightTotalZero(weights[1..]);
      forall i | 0 <= i < |weights[1..]| ensures weights[1..][i] == weights[i + 1] {}
    }
  }

  lemma {:induction false} EffectiveWeightsPositive(accounts: seq<AccountDirectSpend>, rule: AllocationRule)
    requires accounts != []
    ensures WeightTotal(WeightsUnder(accounts, EffectiveRule(accounts, rule))) > 0
  {
    WeightTotalZero(EvenWeights(|accounts|));
  }

  /** What `allocateShared` promises: every account keeps its id and its direct spend, in input order;
      direct plus allocated plus unallocated is the tenant total, to the micro-dollar; nothing stays
      unallocated unless there is nobody to allocate to. */
  lemma {:induction false} AllocationReconciles(accounts: seq<AccountDirectSpend>, shared: int, rule: AllocationRule)
    requires AcceptableInput(accounts, shared)
    ensures var a := Allocate(accounts, shared, rule);
      && a.Ok? && a.value.rule == rule && a.value.sharedMicroUsd == shared
      && |a.value.accounts| == |accounts|
      && (forall i :: 0 <= i < |accounts| ==>
           && a.value.accounts[i].accountId == accounts[i].accountId
           && a.value.accounts[i].directMicroUsd == accounts[i].directMicroUsd
           && a.value.accounts[i].totalMicroUsd == accounts[i].directMicroUsd + a.value.accounts[i].allocatedMicroUsd)
      && a.value.allocatedTotalMicroUsd == SumBy(a.value.accounts, Allocated)
      && SumBy(a.value.accounts, Allocated) + a.value.unallocatedMicroUsd == shared
      && a.value.directTotalMicroUsd == SumBy(accounts, Direct)
      && SumBy(a.value.accounts, RowTotal) + a.value.unallocatedMicroUsd == a.value.tenantTotalMicroUsd
      && a.value.tenantTotalMicroUsd == SumBy(accounts, Direct) + shared
      && (a.value.unallocatedMicroUsd != 0 ==> accounts == [])
  {
    AllocateAcceptsExactly(accounts, shared, rule);
    if accounts != [] {
      var weights := WeightsUnder(accounts, EffectiveRule(accounts, rule));
      var shares := Split(shared, weights);
      var rows := AllocatedRows(accounts, shares);
      EffectiveWeightsPositive(accounts, rule);
      SplitSumsToTotal(shared, weights);
      SumPointwise(rows, shares, Allocated, (x: int) => x);
      SumPointwise(rows, accounts, RowDirect, Direct);
      SumAdd(rows, RowDirect, Allocated, RowTotal);
    }
  }

  /** The named rule is replaced exactly when pro rata has no denominator: accounts exist and none of
      them has positive direct spend. Under the pro-rata rule a credit earns no share at all. */
  lemma {:induction false} FallbackExactly(accounts: seq<AccountDirectSpend>, shared: int, rule: AllocationRule)
    requires AcceptableInput(accounts, shared)
    ensures var a := Allocate(accounts, shared, rule);
      && a.Ok? && |a.value.accounts| == |accounts|
      && (a.value.effectiveRule != rule <==>
           rule == ProRataDirect && accounts != [] && forall i :: 0 <= i < |accounts| ==>
             accounts[i].directMicroUsd <= 0)
      && (a.value.effectiveRule == ProRataDirect ==>
           forall i :: 0 <= i < |accounts| && accounts[i].directMicroUsd <= 0 ==>
             a.value.accounts[i].allocatedMicroUsd == 0)
  {
    AllocateAcceptsExactly(accounts, shared, rule);
    var weights := ProRataWeights(accounts);
    WeightTotalZero(weights);
    if accounts != [] && EffectiveRule(accounts, rule) == ProRataDirect {
      forall i | 0 <= i < |accounts| && accounts[i].directMicroUsd <= 0 ensures Split(shared, weights)[i] == 0 {
        SplitWithinQuota(shared, weights, i);
      }
    }
  }

  // ---- Guarantee 3: "every returned amount is a safe integer" ----

  ghost predicate AllAmountsSafe(a: AllocationResult) {
    && IsSafeInteger(a.sharedMicroUsd) && IsSafeInteger(a.allocatedTotalMicroUsd)
    && IsSafeInteger(a.unallocatedMicroUsd) && IsSafeInteger(a.directTotalMicroUsd)
    && IsSafeInteger(a.tenantTotalMicroUsd)
    && (forall i :: 0 <= i < |a.accounts| ==>
         && IsSafeInteger(a.accounts[i].directMicroUsd) && IsSafeInteger(a.accounts[i].allocatedMicroUsd)
         && IsSafeInteger(a.accounts[i].totalMicroUsd))
  }

  /** Shares are always safe, so the guarantee fails only where a sum does: the direct total, the
      tenant total, or some row's direct plus share. */
  lemma {:induction false} SafeExactlyWhenSumsAre(accounts: seq<AccountDirectSpend>, shared: int, rule: AllocationRule)
    requires AcceptableInput(accounts, shared)
    ensures var a := Allocate(accounts, shared, rule);
      && a.Ok?
      && (AllAmountsSafe(a.value) <==>
           && IsSafeInteger(SumBy(accounts, Direct))
           && IsSafeInteger(SumBy(accounts, Direct) + shared)
           && forall i :: 0 <= i < |a.value.accounts| ==> IsSafeInteger(a.value.accounts[i].totalMicroUsd))
  {
    AllocationReconciles(accounts, shared, rule);
    if accounts != [] {
      var weights := WeightsUnder(accounts, EffectiveRule(accounts, rule));
      EffectiveWeightsPositive(accounts, rule);
      forall i | 0 <= i < |accounts| ensures IsSafeInteger(Split(shared, weights)[i]) {
        SplitWithinQuota(shared, weights, i);
      }
    }
  }

  /** The account with the largest direct spend, the earlier one between equals. */
  ghost predicate IsCostliest(accounts: seq<AccountDirectSpend>, t: nat) {
    t < |accounts| && forall i :: 0 <= i < |accounts| ==>
      accounts[i].directMicroUsd < accounts[t].directMicroUsd
        || (accounts[i].directMicroUsd == accounts[t].directMicroUsd && t <= i)
  }

  /** What an even split gives account `i` of `n`: the first ones take what does not divide. */
  function EvenShare(total: int, n: Positive, i: nat): int {
    Signed(total, Abs(total) / n + if i < Abs(total) % n then 1 else 0)
  }

  lemma {:induction false} EvenWeightTotal(n: nat)
    ensures WeightTotal(EvenWeights(n)) == n
  {
    if n > 0 {
      assert EvenWeights(n)[1..] == EvenWeights(n - 1);
      EvenWeightTotal(n - 1);
    }
  }

  lemma {:induction false} ConstantSum(s: seq<int>, c: int)
    requires forall i :: 0 <= i < |s| ==> s[i] == c
    ensures Ints(s) == |s| * c
  {
    if s != [] {
      ConstantSum(s[1..], c);
    }
  }

  /** Ones before zeros, adding up to `k`: exactly the first `k` are ones. */
  lemma {:induction false} OnesComeFirst(extra: seq<int>, k: int)
    requires forall i :: 0 <= i < |extra| ==> extra[i] == 0 || extra[i] == 1
    requires forall i, j :: 0 <= i < |extra| && 0 <= j < |extra| && extra[i] == 1 && extra[j] == 0 ==> i < j
    requires Ints(extra) == k
    ensures k >= 0 && forall i :: 0 <= i < |extra| ==> (extra[i] == 1 <==> i < k)
  {
    if extra != [] {
      if extra[0] == 0 {
        assert forall i :: 0 <= i < |extra| ==> extra[i] == 0;
        ConstantSum(extra, 0);
      } else {
        OnesComeFirst(extra[1..], k - 1);
        assert forall i :: 1 <= i < |extra| ==> extra[i] == extra[1..][i - 1];
      }
    }
  }

  lemma {:induction false} EvenParts(magnitude: nat, n: Positive)
    ensures WeightTotal(EvenWeights(n)) == n
    ensures forall k :: 0 <= k < n ==> Floors(magnitude, EvenWeights(n), n)[k] == magnitude / n
    ensures forall k :: 0 <= k < n ==> Rests(magnitude, EvenWeights(n), n)[k] == magnitude % n
  {
    EvenWeightTotal(n);
    forall k | 0 <= k < n
      ensures Floors(magnitude, EvenWeights(n), n)[k] == magnitude / n
      ensures Rests(magnitude, EvenWeights(n), n)[k] == magnitude % n
    {
      QuotientAt(magnitude, EvenWeights(n), n, k);
      assert magnitude * EvenWeights(n)[k] == magnitude;
    }
  }

  lemma {:induction false} EvenLeftover(magnitude: nat, n: Positive)
    requires WeightTotal(EvenWeights(n)) == n
    ensures Leftover(magnitude, EvenWeights(n)) == magnitude % n
  {
    EvenParts(magnitude, n);
    hide WeightTotal, Floors;
    ConstantSum(Floors(magnitude, EvenWeights(n), n), magnitude / n);
    DivMod(magnitude, n);
  }

  lemma {:induction false} EvenSplitIs(total: int, n: Positive, i: nat)
    requires i < n
    ensures Split(total, EvenWeights(n))[i] == EvenShare(total, n, i)
  {
    EvenWeightTotal(n);
    if total != 0 {
      var magnitude, weights := Abs(total), EvenWeights(n);
      var rests, left := Rests(magnitude, weights, n), Leftover(magnitude, weights);
      EvenParts(magnitude, n);
      EvenLeftover(magnitude, n);
      ExtraGoesToLargestRemainders(rests, left);
      hide Extra, Floors, Rests, Leftover, WeightTotal, EvenWeights;
      OnesComeFirst(Extra(rests, left), left);
    }
  }

  lemma {:induction false} ProRataTopDecides(accounts: seq<AccountDirectSpend>, shared: int, t: nat)
    requires AcceptableInput(accounts, shared) && IsCostliest(accounts, t) && accounts[t].directMicroUsd > 0
    ensures WeightTotal(ProRataWeights(accounts)) > 0
    ensures var shares := Split(shared, ProRataWeights(accounts));
      (forall i :: 0 <= i < |accounts| ==> IsSafeInteger(accounts[i].directMicroUsd + shares[i]))
      <==> accounts[t].directMicroUsd + shares[t] <= MAX_SAFE_INTEGER
  {
    var weights := ProRataWeights(accounts);
    var shares := Split(shared, weights);
    assert weights[t] > 0;
    forall i | 0 <= i < |accounts|
      ensures -MAX_SAFE_INTEGER <= accounts[i].directMicroUsd + shares[i]
      ensures accounts[i].directMicroUsd + shares[i] <= Max(MAX_SAFE_INTEGER, accounts[t].directMicroUsd + shares[t])
    {
      SplitWithinQuota(shared, weights, i);
      SplitWithinQuota(shared, weights, t);
      ShareHasSign(shared, weights, i);
      ShareHasSign(shared, weights, t);
      if i != t && accounts[i].directMicroUsd > 0 {
        SplitIsFair(shared, weights, t, i);
      }
    }
  }

  lemma {:induction false} BaseIsNat(p: Part, magnitude: nat, weight: nat, whole: Positive)
    requires ValidPart(p, magnitude, weight, whole)
    ensures p.base >= 0
  {
    MulMonotone(magnitude, 0, weight);
    Cancel(whole, -1, p.base);
  }

  lemma {:induction false} ShareHasSign(total: int, weights: seq<nat>, i: nat)
    requires WeightTotal(weights) > 0 && i < |weights|
    ensures total >= 0 ==> Split(total, weights)[i] >= 0
    ensures total <= 0 ==> Split(total, weights)[i] <= 0
  {
    hide Floors, Rests, Leftover, Extra, PartOf, WeightTotal;
    if total != 0 {
      ShareOfPart(total, weights, i);
      PartIsValid(Abs(total), weights, i);
      hide Split;
      BaseIsNat(PartOf(Abs(total), weights, i), Abs(total), weights[i], WeightTotal(weights));
    }
  }

  // ---- A share without the ranking ----

  /** How many accounts come before account `t` in the ranking. */
  function CountBefore(rests: seq<nat>, t: nat): int
    requires t < |rests|
  {
    Ints(OutrankingFlags(rests, t))
  }

  function OutrankingFlags(rests: seq<nat>, t: nat): (flags: seq<int>)
    requires t < |rests|
    ensures |flags| == |rests|
  {
    seq(|rests|, j requires 0 <= j < |rests| => if Outranks(rests, j, t) then 1 else 0)
  }

  lemma {:induction false} IntsAtMost(s: seq<int>, t: seq<int>)
    requires |s| == |t| && forall i :: 0 <= i < |s| ==> s[i] <= t[i]
    ensures Ints(s) <= Ints(t)
    ensures (exists i :: 0 <= i < |s| && s[i] < t[i]) ==> Ints(s) < Ints(t)
  {
    if s != [] {
      IntsAtMost(s[1..], t[1..]);
      if i :| 0 <= i < |s| && s[i] < t[i] {
        assert i == 0 || s[1..][i - 1] < t[1..][i - 1];
      }
    }
  }

  /** An account gets an extra unit exactly when fewer accounts outrank it than there are units. */
  lemma {:induction false} ExtraByRank(rests: seq<nat>, left: nat, t: nat)
    requires left <= |rests| && t < |rests|
    ensures Extra(rests, left)[t] == if CountBefore(rests, t) < left then 1 else 0
  {
    ExtraGoesToLargestRemainders(rests, left);
    hide Extra, Ints;
    var extra, flags := Extra(rests, left), OutrankingFlags(rests, t);
    if extra[t] == 1 {
      assert flags[t] == 0;
      IntsAtMost(flags, extra);
    } else {
      IntsAtMost(extra, flags);
    }
  }

  /** Every share in closed form, from the arguments alone: the quotient, and one unit more for whoever
      fewer accounts outrank than there are leftover units. */
  lemma {:induction false} ShareByRank(total: int, weights: seq<nat>, i: nat)
    requires WeightTotal(weights) > 0 && i < |weights|
    ensures var magnitude, whole := Abs(total), WeightTotal(weights);
      Split(total, weights)[i] == if total == 0 then 0 else
        Signed(total, magnitude * weights[i] / whole
          + if CountBefore(Rests(magnitude, weights, whole), i) < Leftover(magnitude, weights) then 1 else 0)
  {
    if total != 0 {
      hide Extra, Leftover, CountBefore, WeightTotal;
      ExtraByRank(Rests(Abs(total), weights, WeightTotal(weights)), Leftover(Abs(total), weights), i);
    }
  }

  // ---- Guarantee 3, from the arguments ----

  /** Room for the row of account `t` under the pro-rata rule: its direct spend and its quotient fit, and
      where they fill the range exactly no extra unit comes on top. */
  predicate RoomForTop(accounts: seq<AccountDirectSpend>, shared: int, t: nat)
    requires t < |accounts| && WeightTotal(ProRataWeights(accounts)) > 0
  {
    var direct, weights := accounts[t].directMicroUsd, ProRataWeights(accounts);
    var whole, magnitude := WeightTotal(weights), Abs(shared);
    var figure := direct + magnitude * direct / whole;
    || shared <= 0
    || figure < MAX_SAFE_INTEGER
    || (figure == MAX_SAFE_INTEGER
        && (magnitude * direct % whole == 0
            || CountBefore(Rests(magnitude, weights, whole), t) >= Leftover(magnitude, weights)))
  }

  lemma {:induction false} NoRestNoExtra(magnitude: nat, weights: seq<nat>, i: nat)
    requires WeightTotal(weights) > 0 && i < |weights| && magnitude * weights[i] % WeightTotal(weights) == 0
    ensures var rests := Rests(magnitude, weights, WeightTotal(weights));
      CountBefore(rests, i) >= Leftover(magnitude, weights)
  {
    var rests := Rests(magnitude, weights, WeightTotal(weights));
    assert rests[i] == 0;
    PartIsValid(magnitude, weights, i);
    hide Extra, Leftover, CountBefore, WeightTotal, Rests, Floors;
    ExtraByRank(rests, Leftover(magnitude, weights), i);
  }

  lemma {:induction false} RoomForTopExactly(accounts: seq<AccountDirectSpend>, shared: int, t: nat)
    requires IsSafeInteger(shared) && t < |accounts| && 0 < accounts[t].directMicroUsd <= MAX_SAFE_INTEGER
    requires WeightTotal(ProRataWeights(accounts)) > 0
    ensures accounts[t].directMicroUsd + Split(shared, ProRataWeights(accounts))[t] <= MAX_SAFE_INTEGER
      <==> RoomForTop(accounts, shared, t)
  {
    var weights := ProRataWeights(accounts);
    assert weights[t] == accounts[t].directMicroUsd;
    ShareHasSign(shared, weights, t);
    ShareByRank(shared, weights, t);
    hide Split, WeightTotal, CountBefore, Rests, Leftover, ProRataWeights;
    if shared > 0 && shared * weights[t] % WeightTotal(weights) == 0 {
      NoRestNoExtra(shared, weights, t);
    }
  }

  lemma {:induction false} ProRataWhole(accounts: seq<AccountDirectSpend>, t: nat)
    requires t < |accounts| && accounts[t].directMicroUsd > 0
    ensures WeightTotal(ProRataWeights(accounts)) > 0
  {
    assert ProRataWeights(accounts)[t] > 0;
  }

  /** What the rows need beside the two totals: room for the costliest account under the pro-rata rule,
      plain quotients under the even split. */
  ghost predicate RowsFit(accounts: seq<AccountDirectSpend>, shared: int, rule: AllocationRule, t: nat)
    requires t < |accounts|
  {
    if rule == ProRataDirect && accounts[t].directMicroUsd > 0 then
      ProRataWhole(accounts, t);
      RoomForTop(accounts, shared, t)
    else
      forall i :: 0 <= i < |accounts| ==>
        IsSafeInteger(accounts[i].directMicroUsd + EvenShare(shared, |accounts|, i))
  }

  ghost predicate TotalsAre(accounts: seq<AccountDirectSpend>, shares: seq<int>, rows: seq<AccountAllocation>) {
    |rows| == |shares| == |accounts|
    && forall i :: 0 <= i < |accounts| ==> rows[i].totalMicroUsd == accounts[i].directMicroUsd + shares[i]
  }

  ghost predicate RowsSafe(rows: seq<AccountAllocation>) {
    forall i :: 0 <= i < |rows| ==> IsSafeInteger(rows[i].totalMicroUsd)
  }

  lemma {:induction false} ProRataRowsFit(accounts: seq<AccountDirectSpend>, shared: int, t: nat,
                                          rows: seq<AccountAllocation>)
    requires AcceptableInput(accounts, shared) && IsCostliest(accounts, t) && accounts[t].directMicroUsd > 0
    requires TotalsAre(accounts, Split(shared, ProRataWeights(accounts)), rows)
    ensures RowsSafe(rows) <==> RowsFit(accounts, shared, ProRataDirect, t)
  {
    ProRataWhole(accounts, t);
    ProRataTopDecides(accounts, shared, t);
    RoomForTopExactly(accounts, shared, t);
    hide Split, ProRataWeights, RoomForTop, IsSafeInteger, AcceptableInput, IsCostliest, WeightTotal;
  }

  lemma {:induction false} EvenRowsFit(accounts: seq<AccountDirectSpend>, shared: int, rule: AllocationRule, t: nat,
                                       rows: seq<AccountAllocation>)
    requires t < |accounts| && (rule == EvenSplit || accounts[t].directMicroUsd <= 0)
    requires TotalsAre(accounts, Split(shared, EvenWeights(|accounts|)), rows)
    ensures RowsSafe(rows) <==> RowsFit(accounts, shared, rule, t)
  {
    hide Split, EvenShare, EvenWeights, IsSafeInteger, ProRataWeights, RoomForTop;
    forall i | 0 <= i < |accounts|
      ensures Split(shared, EvenWeights(|accounts|))[i] == EvenShare(shared, |accounts|, i)
    {
      EvenSplitIs(shared, |accounts|, i);
    }
  }

  lemma {:induction false} RowsUnder(accounts: seq<AccountDirectSpend>, shared: int, rule: AllocationRule, t: nat)
    requires AcceptableInput(accounts, shared) && IsCostliest(accounts, t)
    ensures Allocate(accounts, shared, rule).Ok?
    ensures TotalsAre(accounts,
      Split(shared, if rule == ProRataDirect && accounts[t].directMicroUsd > 0 then ProRataWeights(accounts)
                    else EvenWeights(|accounts|)),
      Allocate(accounts, shared, rule).value.accounts)
  {
    AllocateAcceptsExactly(accounts, shared, rule);
    WeightTotalZero(ProRataWeights(accounts));
    hide Split, WeightTotal, FirstProblem, AcceptableInput, SumBy;
  }

  /** Guarantee 3, decided from the arguments: the direct total and the tenant total are safe, and the
      rows fit, which is a matter of one row under the pro-rata rule, that of the costliest account. */
  lemma {:induction false} SafeExactly(accounts: seq<AccountDirectSpend>, shared: int, rule: AllocationRule, t: nat)
    requires AcceptableInput(accounts, shared) && (accounts == [] || IsCostliest(accounts, t))
    ensures var a := Allocate(accounts, shared, rule);
      && a.Ok?
      && (AllAmountsSafe(a.value) <==>
           && IsSafeInteger(SumBy(accounts, Direct))
           && IsSafeInteger(SumBy(accounts, Direct) + shared)
           && (accounts == [] || RowsFit(accounts, shared, rule, t)))
  {
    SafeExactlyWhenSumsAre(accounts, shared, rule);
    if accounts == [] {
      AllocateAcceptsExactly(accounts, shared, rule);
    } else {
      RowsUnder(accounts, shared, rule, t);
      hide Allocate, Split, AllAmountsSafe, SumBy, AcceptableInput, RowsFit, IsSafeInteger, TotalsAre, ProRataWeights;
      var rows := Allocate(accounts, shared, rule).value.accounts;
      if rule == ProRataDirect && accounts[t].directMicroUsd > 0 {
        ProRataRowsFit(accounts, shared, t, rows);
      } else {
        EvenRowsFit(accounts, shared, rule, t, rows);
      }
    }
  }

  const DirectSize: AccountDirectSpend -> int := (a: AccountDirectSpend) => Abs(a.directMicroUsd)

  lemma {:induction false} SumWithinSizes(accounts: seq<AccountDirectSpend>)
    ensures Abs(SumBy(accounts, Direct)) <= SumBy(accounts, DirectSize)
    ensures forall i :: 0 <= i < |accounts| ==> Abs(accounts[i].directMicroUsd) <= SumBy(accounts, DirectSize)
  {
    if accounts != [] {
      SumWithinSizes(accounts[1..]);
      forall i | 0 <= i < |accounts|
        ensures Abs(accounts[i].directMicroUsd) <= SumBy(accounts, DirectSize)
      {
        assert i == 0 || accounts[i] == accounts[1..][i - 1];
      }
    }
  }

  /** Bounding the bill makes the guarantee hold, whatever the signs. */
  lemma {:induction false} SafeWhenBounded(accounts: seq<AccountDirectSpend>, shared: int, rule: AllocationRule)
    requires AcceptableInput(accounts, shared)
    requires SumBy(accounts, DirectSize) + Abs(shared) <= MAX_SAFE_INTEGER
    ensures var a := Allocate(accounts, shared, rule); a.Ok? && AllAmountsSafe(a.value)
  {
    SafeExactlyWhenSumsAre(accounts, shared, rule);
    SumWithinSizes(accounts);
    AllocationReconciles(accounts, shared, rule);
    if accounts != [] {
      var weights := WeightsUnder(accounts, EffectiveRule(accounts, rule));
      EffectiveWeightsPositive(accounts, rule);
      forall i | 0 <= i < |accounts| ensures Abs(Split(shared, weights)[i]) <= Abs(shared) {
        SplitWithinQuota(shared, weights, i);
      }
    }
  }

  /** Without credits the bound is exact: the guarantee holds if and only if the whole tenant bill is
      a safe integer. */
  lemma {:induction false} SafeExactlyWithoutCredits(accounts: seq<AccountDirectSpend>, shared: int,
                                                     rule: AllocationRule)
    requires AcceptableInput(accounts, shared) && shared >= 0
    requires forall i :: 0 <= i < |accounts| ==> accounts[i].directMicroUsd >= 0
    ensures var a := Allocate(accounts, shared, rule);
      && a.Ok?
      && (AllAmountsSafe(a.value) <==> SumBy(accounts, Direct) + shared <= MAX_SAFE_INTEGER)
  {
    AllocationReconciles(accounts, shared, rule);
    SumCongruent(accounts, Direct, DirectSize);
    SumWithinSizes(accounts);
    if SumBy(accounts, Direct) + shared <= MAX_SAFE_INTEGER {
      SafeWhenBounded(accounts, shared, rule);
    }
  }

  /** So the guarantee is not unconditional: one account at the top of the range is enough. */
  lemma {:induction false} GuaranteeThreeCanFail()
    ensures var accounts := [AccountDirectSpend("a", MAX_SAFE_INTEGER)];
      var a := Allocate(accounts, MAX_SAFE_INTEGER, ProRataDirect);
      a.Ok? && !AllAmountsSafe(a.value)
  {
    var accounts := [AccountDirectSpend("a", MAX_SAFE_INTEGER)];
    SafeExactlyWithoutCredits(accounts, MAX_SAFE_INTEGER, ProRataDirect);
    assert SumBy(accounts, Direct) == MAX_SAFE_INTEGER + SumBy(accounts[1..], Direct);
  }

  /** The scan of the arguments, with the direct total added up on the way. */
  method ScanArguments(accounts: seq<AccountDirectSpend>) returns (problem: Option<AllocationError>, directTotal: int)
    ensures problem == ScanAccounts(accounts, {})
    ensures problem.None? ==> directTotal == SumBy(accounts, Direct)
  {
    hide IsSafeInteger;
    var seen: set<string> := {};
    directTotal := 0;
    for i := 0 to |accounts|
      invariant ScanAccounts(accounts, {}) == ScanAccounts(accounts[i..], seen)
      invariant directTotal == SumBy(accounts[..i], Direct)
    {
      var a := accounts[i];
      assert accounts[i..][0] == a && accounts[i..][1..] == accounts[i + 1..];
      if !IsSafeInteger(a.directMicroUsd) {
        return Some(UnsafeDirect(a.accountId)), 0;
      }
      if a.accountId in seen {
        return Some(DuplicateAccount(a.accountId)), 0;
      }
      seen := seen + {a.accountId};
      SumSnoc(accounts[..i + 1], Direct);
      assert accounts[..i + 1][..i] == accounts[..i];
      directTotal := directTotal + a.directMicroUsd;
    }
    assert accounts[..|accounts|] == accounts;
    problem := None;
  }

  method AllocateShared(accounts: seq<AccountDirectSpend>, shared: int, rule: AllocationRule)
      returns (r: Result<AllocationResult, AllocationError>)
    ensures r == Allocate(accounts, shared, rule)
  {
    hide Split, WeightTotal, SumBy, ScanAccounts;
    if !IsSafeInteger(shared) {
      return Err(UnsafeShared);
    }
    var problem, directTotal := ScanArguments(accounts);
    if problem.Some? {
      return Err(problem.value);
    }
    if |accounts| == 0 {
      return Ok(AllocationResult(rule, rule, [], shared, 0, shared, 0, shared));
    }
    var weights := ProRataWeights(accounts);
    var weightTotal := TotalWeight(weights);
    var effective := if rule == ProRataDirect && weightTotal == 0 then EvenSplit else rule;
    var shares := LargestRemainder(shared, if effective == ProRataDirect then weights else EvenWeights(|accounts|));
    var rows := AllocatedRows(accounts, shares[..]);
    r := Ok(AllocationResult(rule, effective, rows, shared, SumBy(rows, Allocated), 0, directTotal,
                             directTotal + shared));
  }
}
