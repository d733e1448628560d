/** Sums over sequences, and the one law behind every `GROUP BY` in the dashboard: summing each
    group and then summing the groups gives the sum of the rows. */
module Sums {

  function SumBy<T>(s: seq<T>, f: T -> int): int {
    if s == [] then 0 else f(s[0]) + SumBy(s[1..], f)
  }

  /** Sum of `f` over the elements of `s` that satisfy `p`. */
  function SumWhere<T>(s: seq<T>, p: T -> bool, f: T -> int): int {
    if s == [] then 0 else (if p(s[0]) then f(s[0]) else 0) + SumWhere(s[1..], p, f)
  }

  function Filter<T(!new)>(s: seq<T>, p: T -> bool): (r: seq<T>)
    ensures forall x :: x in r <==> x in s && p(x)
    ensures |r| <= |s|
  {
    if s == [] then [] else (if p(s[0]) then [s[0]] else []) + Filter(s[1..], p)
  }

  function Map<S, T>(s: seq<S>, f: S -> T): (r: seq<T>)
    ensures |r| == |s|
    ensures forall i :: 0 <= i < |s| ==> r[i] == f(s[i])
  {
    seq(|s|, i requires 0 <= i < |s| => f(s[i]))
  }

  ghost predicate Distinct<T>(s: seq<T>) {
    forall i, j :: 0 <= i < j < |s| ==> s[i] != s[j]
  }

  function Ints(s: seq<int>): int {
    SumBy(s, (x: int) => x)
  }

  lemma {:induction false} SumConcat<T>(s: seq<T>, t: seq<T>, f: T -> int)
    ensures SumBy(s + t, f) == SumBy(s, f) + SumBy(t, f)
  {
    if s == [] {
      assert s + t == t;
    } else {
      assert (s + t)[1..] == s[1..] + t;
      SumConcat(s[1..], t, f);
    }
  }

  lemma {:induction false} SumOfTwo<T>(a: T, b: T, f: T -> int)
    ensures SumBy([a, b], f) == f(a) + f(b)
  {
    assert [a, b][1..] == [b];
    assert [b][1..] == [];
    assert SumBy([b], f) == f(b);
  }

  /** Peeling the last element instead of the first. */
  lemma {:induction false} SumSnoc<T>(s: seq<T>, f: T -> int)
    requires s != []
    ensures SumBy(s, f) == SumBy(s[..|s| - 1], f) + f(s[|s| - 1])
  {
    SumConcat(s[..|s| - 1], s[|s| - 1..], f);
    assert s == s[..|s| - 1] + s[|s| - 1..];
    assert s[|s| - 1..] == [s[|s| - 1]];
    assert SumBy([s[|s| - 1]], f) == f(s[|s| - 1]);
  }

  lemma {:induction false} SumCongruent<T>(s: seq<T>, f: T -> int, g: T -> int)
    requires forall x :: x in s ==> f(x) == g(x)
    ensures SumBy(s, f) == SumBy(s, g)
  {
    if s != [] {
      SumCongruent(s[1..], f, g);
    }
  }

  lemma {:induction false} SumPointwise<S, T>(s: seq<S>, t: seq<T>, f: S -> int, g: T -> int)
    requires |s| == |t|
    requires forall i :: 0 <= i < |s| ==> f(s[i]) == g(t[i])
    ensures SumBy(s, f) == SumBy(t, g)
  {
    if s != [] {
      SumPointwise(s[1..], t[1..], f, g);
    }
  }

  lemma {:induction false} SumAdd<T>(s: seq<T>, f: T -> int, g: T -> int, h: T -> int)
    requires forall x :: x in s ==> h(x) == f(x) + g(x)
    ensures SumBy(s, h) == SumBy(s, f) + SumBy(s, g)
  {
    if s != [] {
      SumAdd(s[1..], f, g, h);
    }
  }

  lemma {:induction false} SumAtMost<T>(s: seq<T>, f: T -> int, g: T -> int)
    requires forall x :: x in s ==> f(x) <= g(x)
    ensures SumBy(s, f) <= SumBy(s, g)
  {
    if s != [] {
      SumAtMost(s[1..], f, g);
    }
  }

  lemma {:induction false} SumZero<T>(s: seq<T>, f: T -> int)
    requires forall x :: x in s ==> f(x) == 0
    ensures SumBy(s, f) == 0
  {
    if s != [] {
      SumZero(s[1..], f);
    }
  }

  function Without<T>(s: seq<T>, k: nat): seq<T>
    requires k < |s|
  {
    s[..k] + s[k + 1..]
  }

  lemma {:induction false} SumWithout<T>(s: seq<T>, k: nat, f: T -> int)
    requires k < |s|
    ensures SumBy(s, f) == f(s[k]) + SumBy(Without(s, k), f)
  {
    SumConcat(s[..k], s[k..], f);
    SumConcat(s[..k], s[k + 1..], f);
    assert s == s[..k] + s[k..];
    assert s[k..][1..] == s[k + 1..];
  }

  lemma {:induction false} MultisetWithout<T>(s: seq<T>, k: nat)
    requires k < |s|
    ensures multiset(Without(s, k)) == multiset(s) - multiset{s[k]}
  {
    assert s == s[..k] + ([s[k]] + s[k + 1..]);
  }

  /** A sum does not depend on the order of its terms. */
  lemma {:induction false} SumPermutation<T>(s: seq<T>, t: seq<T>, f: T -> int)
    requires multiset(s) == multiset(t)
    ensures SumBy(s, f) == SumBy(t, f)
  {
    if s == [] {
      assert |t| == |multiset(t)| == |multiset(s)| == 0;
    } else {
      assert s[0] in multiset(s);
      assert s[0] in t;
      var k :| 0 <= k < |t| && t[k] == s[0];
      MultisetWithout(s, 0);
      MultisetWithout(t, k);
      assert Without(s, 0) == s[1..];
      SumPermutation(s[1..], Without(t, k), f);
      SumWithout(t, k, f);
    }
  }

  // ---- Conditional sums ----

  lemma {:induction false} WhereConcat<T>(s: seq<T>, t: seq<T>, p: T -> bool, f: T -> int)
    ensures SumWhere(s + t, p, f) == SumWhere(s, p, f) + SumWhere(t, p, f)
  {
    if s == [] {
      assert s + t == t;
    } else {
      assert (s + t)[1..] == s[1..] + t;
      WhereConcat(s[1..], t, p, f);
    }
  }

  lemma {:induction false} WhereCongruent<T>(s: seq<T>, p: T -> bool, q: T -> bool, f: T -> int, g: T -> int)
    requires forall x :: x in s ==> p(x) == q(x)
    requires forall x :: x in s && p(x) ==> f(x) == g(x)
    ensures SumWhere(s, p, f) == SumWhere(s, q, g)
  {
    if s != [] {
      WhereCongruent(s[1..], p, q, f, g);
    }
  }

  lemma {:induction false} WhereNone<T>(s: seq<T>, p: T -> bool, f: T -> int)
    requires forall x :: x in s && p(x) ==> f(x) == 0
    ensures SumWhere(s, p, f) == 0
  {
    if s != [] {
      WhereNone(s[1..], p, f);
    }
  }

  lemma {:induction false} WhereAll<T>(s: seq<T>, p: T -> bool, f: T -> int)
    requires forall x :: x in s && !p(x) ==> f(x) == 0
    ensures SumWhere(s, p, f) == SumBy(s, f)
  {
    if s != [] {
      WhereAll(s[1..], p, f);
    }
  }

  /** Splitting a condition into two disjoint halves. */
  lemma {:induction false} WhereSplit<T>(s: seq<T>, p: T -> bool, q: T -> bool, r: T -> bool, f: T -> int)
    requires forall x :: x in s ==> p(x) == (q(x) || r(x)) && !(q(x) && r(x))
    ensures SumWhere(s, p, f) == SumWhere(s, q, f) + SumWhere(s, r, f)
  {
    if s != [] {
      WhereSplit(s[1..], p, q, r, f);
    }
  }

  lemma {:induction false} WhereAtMost<T>(s: seq<T>, p: T -> bool, q: T -> bool, f: T -> int)
    requires forall x :: x in s ==> f(x) >= 0
    requires forall x :: x in s && p(x) ==> q(x)
    ensures 0 <= SumWhere(s, p, f) <= SumWhere(s, q, f)
  {
    if s != [] {
      WhereAtMost(s[1..], p, q, f);
    }
  }

  lemma {:induction false} WhereIsFilter<T(!new)>(s: seq<T>, p: T -> bool, f: T -> int)
    ensures SumWhere(s, p, f) == SumBy(Filter(s, p), f)
  {
    if s != [] {
      WhereIsFilter(s[1..], p, f);
      SumConcat(if p(s[0]) then [s[0]] else [], Filter(s[1..], p), f);
    }
  }

  function Guarded<T>(p: T -> bool, f: T -> int): T -> int {
    (x: T) => if p(x) then f(x) else 0
  }

  lemma {:induction false} WhereIsGuarded<T>(s: seq<T>, p: T -> bool, f: T -> int)
    ensures SumWhere(s, p, f) == SumBy(s, Guarded(p, f))
  {
    if s != [] {
      WhereIsGuarded(s[1..], p, f);
    }
  }

  lemma {:induction false} WherePermutation<T>(s: seq<T>, t: seq<T>, p: T -> bool, f: T -> int)
    requires multiset(s) == multiset(t)
    ensures SumWhere(s, p, f) == SumWhere(t, p, f)
  {
    WhereIsGuarded(s, p, f);
    WhereIsGuarded(t, p, f);
    SumPermutation(s, t, Guarded(p, f));
  }

  function Both<T>(p: T -> bool, q: T -> bool): T -> bool {
    (x: T) => p(x) && q(x)
  }

  lemma {:induction false} WhereOfFilter<T(!new)>(s: seq<T>, p: T -> bool, q: T -> bool, f: T -> int)
    ensures SumWhere(Filter(s, p), q, f) == SumWhere(s, Both(p, q), f)
  {
    if s != [] {
      WhereOfFilter(s[1..], p, q, f);
      WhereConcat(if p(s[0]) then [s[0]] else [], Filter(s[1..], p), q, f);
    }
  }

  lemma {:induction false} FilterConcat<T(!new)>(s: seq<T>, t: seq<T>, p: T -> bool)
    ensures Filter(s + t, p) == Filter(s, p) + Filter(t, p)
  {
    if s == [] {
      assert s + t == t;
    } else {
      assert (s + t)[1..] == s[1..] + t;
      FilterConcat(s[1..], t, p);
    }
  }

  lemma {:induction false} FilterTwice<T(!new)>(s: seq<T>, p: T -> bool, q: T -> bool)
    ensures Filter(Filter(s, p), q) == Filter(s, Both(p, q))
  {
    if s != [] {
      FilterTwice(s[1..], p, q);
      FilterConcat(if p(s[0]) then [s[0]] else [], Filter(s[1..], p), q);
    }
  }

  /** Dropping first what would be dropped anyway. */
  lemma {:induction false} FilterImplied<T(!new)>(s: seq<T>, p: T -> bool, q: T -> bool)
    requires forall x :: x in s && q(x) ==> p(x)
    ensures Filter(Filter(s, p), q) == Filter(s, q)
  {
    FilterTwice(s, p, q);
    FilterCongruent(s, Both(p, q), q);
  }

  lemma {:induction false} FilterCongruent<T(!new)>(s: seq<T>, p: T -> bool, q: T -> bool)
    requires forall x :: x in s ==> p(x) == q(x)
    ensures Filter(s, p) == Filter(s, q)
  {
    if s != [] {
      FilterCongruent(s[1..], p, q);
    }
  }

  lemma {:induction false} FilterAll<T(!new)>(s: seq<T>, p: T -> bool)
    requires forall x :: x in s ==> p(x)
    ensures Filter(s, p) == s
  {
    if s != [] {
      FilterAll(s[1..], p);
    }
  }

  lemma {:induction false} FilterNone<T(!new)>(s: seq<T>, p: T -> bool)
    requires forall x :: x in s ==> !p(x)
    ensures Filter(s, p) == []
  {
    if s != [] {
      FilterNone(s[1..], p);
    }
  }

  lemma {:induction false} FilterPermutes<T(!new)>(s: seq<T>, t: seq<T>, p: T -> bool)
    requires multiset(s) == multiset(t)
    ensures multiset(Filter(s, p)) == multiset(Filter(t, p))
  {
    FilterMultiplicity(s, p);
    FilterMultiplicity(t, p);
    forall x ensures multiset(Filter(s, p))[x] == multiset(Filter(t, p))[x] {
    }
  }

  lemma {:induction false} FilterMultiplicity<T(!new)>(s: seq<T>, p: T -> bool)
    ensures forall x :: multiset(Filter(s, p))[x] == if p(x) then multiset(s)[x] else 0
  {
    if s != [] {
      FilterMultiplicity(s[1..], p);
      assert s == [s[0]] + s[1..];
    }
  }

  // ---- Grouping ----

  /** The rows of group `k`, among those that satisfy `p`. */
  function InGroup<T, K(==)>(p: T -> bool, key: T -> K, k: K): T -> bool {
    (x: T) => p(x) && key(x) == k
  }

  function InGroups<T, K(==)>(p: T -> bool, key: T -> K, keys: seq<K>): T -> bool {
    (x: T) => p(x) && key(x) in keys
  }

  /** The group-sum law. `keys` lists each group once; `group(k)` is the sum reported for group `k`.
      Summing the report gives the sum over exactly the rows whose key is listed. */
  lemma {:induction false} GroupSum<T, K>(
      s: seq<T>, p: T -> bool, keys: seq<K>, key: T -> K, f: T -> int, group: K -> int)
    requires Distinct(keys)
    requires forall k :: k in keys ==> group(k) == SumWhere(s, InGroup(p, key, k), f)
    ensures SumBy(keys, group) == SumWhere(s, InGroups(p, key, keys), f)
  {
    if keys == [] {
      WhereNone(s, InGroups(p, key, keys), f);
    } else {
      var k, rest := keys[0], keys[1..];
      GroupSum(s, p, rest, key, f, group);
      assert keys == [k] + rest;
      WhereSplit(s, InGroups(p, key, keys), InGroup(p, key, k), InGroups(p, key, rest), f);
    }
  }

  /** When every row that matters has its group listed, nothing is dropped. */
  lemma {:induction false} GroupTotal<T, K>(
      s: seq<T>, p: T -> bool, keys: seq<K>, key: T -> K, f: T -> int, group: K -> int)
    requires Distinct(keys)
    requires forall k :: k in keys ==> group(k) == SumWhere(s, InGroup(p, key, k), f)
    requires forall x :: x in s && p(x) ==> key(x) in keys
    ensures SumBy(keys, group) == SumWhere(s, p, f)
  {
    GroupSum(s, p, keys, key, f, group);
    WhereCongruent(s, InGroups(p, key, keys), p, f, f);
  }

  /** Two conditions may differ wherever the amount is zero. */
  lemma {:induction false} WhereAgree<T>(s: seq<T>, p: T -> bool, q: T -> bool, f: T -> int)
    requires forall x :: x in s && p(x) != q(x) ==> f(x) == 0
    ensures SumWhere(s, p, f) == SumWhere(s, q, f)
  {
    if s != [] {
      WhereAgree(s[1..], p, q, f);
    }
  }

  /** A condition met at one place only. */
  lemma {:induction false} WhereOnly<T>(s: seq<T>, p: T -> bool, f: T -> int, k: nat)
    requires k < |s|
    requires forall i :: 0 <= i < |s| ==> (p(s[i]) <==> i == k)
    ensures SumWhere(s, p, f) == f(s[k])
  {
    assert s == s[..k] + [s[k]] + s[k + 1..];
    WhereConcat(s[..k] + [s[k]], s[k + 1..], p, f);
    WhereConcat(s[..k], [s[k]], p, f);
    WhereNone(s[..k], p, f);
    WhereNone(s[k + 1..], p, f);
  }

  /** Summing a mapped list is summing the list through the map. */
  lemma {:induction false} WhereOfMap<S, T>(s: seq<S>, m: S -> T, p: T -> bool, f: T -> int, q: S -> bool, g: S -> int)
    requires forall x :: x in s ==> q(x) == p(m(x)) && g(x) == f(m(x))
    ensures SumWhere(Map(s, m), p, f) == SumWhere(s, q, g)
  {
    if s != [] {
      WhereOfMap(s[1..], m, p, f, q, g);
      assert Map(s, m)[1..] == Map(s[1..], m);
    }
  }

  // ---- Mapping ----

  lemma {:induction false} InMap<S, T>(s: seq<S>, f: S -> T, y: T)
    ensures y in Map(s, f) <==> exists x :: x in s && f(x) == y
  {
    if y in Map(s, f) {
      var i :| 0 <= i < |s| && Map(s, f)[i] == y;
      assert s[i] in s;
    }
    if exists x :: x in s && f(x) == y {
      var x :| x in s && f(x) == y;
      var i :| 0 <= i < |s| && s[i] == x;
      assert Map(s, f)[i] == y;
    }
  }

  lemma {:induction false} InMapped<S(!new), T>(s: seq<S>, p: S -> bool, f: S -> T, y: T)
    ensures y in Map(Filter(s, p), f) <==> exists x :: x in s && p(x) && f(x) == y
  {
    InMap(Filter(s, p), f, y);
  }

  lemma {:induction false} MapWithout<S, T>(s: seq<S>, f: S -> T, k: nat)
    requires k < |s|
    ensures Map(Without(s, k), f) == Without(Map(s, f), k)
  {
  }

  lemma {:induction false} MapPermutes<S, T>(s: seq<S>, t: seq<S>, f: S -> T)
    requires multiset(s) == multiset(t)
    ensures multiset(Map(s, f)) == multiset(Map(t, f))
    decreases |s|
  {
    if s == [] {
      assert |t| == |multiset(t)| == |multiset(s)| == 0;
      assert Map(t, f) == Map(s, f);
    } else {
      assert s[0] in multiset(s);
      assert s[0] in t;
      var k :| 0 <= k < |t| && t[k] == s[0];
      MultisetWithout(s, 0);
      MultisetWithout(t, k);
      MapPermutes(Without(s, 0), Without(t, k), f);
      MapWithout(s, f, 0);
      MapWithout(t, f, k);
      PutBack(Map(s, f), Map(t, f), 0, k);
    }
  }

  lemma {:induction false} CollectNone<S(!new), T>(s: seq<S>, p: S -> bool, f: S -> T)
    ensures Map(Filter(s[..0], p), f) == []
  {
  }

  /** Collecting with a loop: one more element, one more push if it qualifies. */
  lemma {:induction false} CollectOneMore<S(!new), T>(s: seq<S>, i: nat, p: S -> bool, f: S -> T)
    requires i < |s|
    ensures Map(Filter(s[..i + 1], p), f) == Map(Filter(s[..i], p), f) + if p(s[i]) then [f(s[i])] else []
  {
    assert s[..i + 1] == s[..i] + [s[i]];
    FilterConcat(s[..i], [s[i]], p);
  }

  lemma {:induction false} PutBack<T>(s: seq<T>, t: seq<T>, j: nat, k: nat)
    requires j < |s| && k < |t| && s[j] == t[k] && multiset(Without(s, j)) == multiset(Without(t, k))
    ensures multiset(s) == multiset(t)
  {
    MultisetWithout(s, j);
    MultisetWithout(t, k);
    assert s[j] in s && t[k] in t;
    assert multiset(s) == multiset(Without(s, j)) + multiset{s[j]};
    assert multiset(t) == multiset(Without(t, k)) + multiset{t[k]};
  }

  // ---- Distinct elements ----

  lemma {:induction false} DistinctMultiplicity<T>(s: seq<T>, x: T)
    requires Distinct(s)
    ensures multiset(s)[x] <= 1
  {
    if s != [] {
      assert s == [s[0]] + s[1..];
      DistinctMultiplicity(s[1..], x);
      if x == s[0] {
        assert x !in s[1..];
        assert multiset(s[1..])[x] == 0;
      }
    }
  }

  lemma {:induction false} RepeatedMultiplicity<T>(t: seq<T>, i: nat, j: nat)
    requires i < j < |t| && t[i] == t[j]
    ensures multiset(t)[t[i]] >= 2
  {
    assert t == t[..j] + t[j..];
    assert t[i] in t[..j] && t[j] in t[j..];
  }

  lemma {:induction false} DistinctPermutation<T>(s: seq<T>, t: seq<T>)
    requires Distinct(s) && multiset(s) == multiset(t)
    ensures Distinct(t)
  {
    forall i, j | 0 <= i < j < |t| ensures t[i] != t[j] {
      DistinctMultiplicity(s, t[i]);
      if t[i] == t[j] {
        RepeatedMultiplicity(t, i, j);
        assert false;
      }
    }
  }

  /** Two duplicate-free lists of the same elements are permutations of each other. */
  lemma {:induction false} DistinctSameMembers<T>(s: seq<T>, t: seq<T>)
    requires Distinct(s) && Distinct(t) && forall x :: x in s <==> x in t
    ensures multiset(s) == multiset(t) && |s| == |t|
  {
    forall x ensures multiset(s)[x] == multiset(t)[x] {
      DistinctMultiplicity(s, x);
      DistinctMultiplicity(t, x);
      assert x in multiset(s) <==> x in s;
      assert x in multiset(t) <==> x in t;
    }
    assert multiset(s) == multiset(t);
    assert |s| == |multiset(s)| == |multiset(t)| == |t|;
  }

  lemma {:induction false} FilterKeepsDistinct<T(!new)>(s: seq<T>, p: T -> bool)
    requires Distinct(s)
    ensures Distinct(Filter(s, p))
  {
    if s != [] {
      FilterKeepsDistinct(s[1..], p);
      assert forall x :: x in Filter(s[1..], p) ==> x in s[1..];
    }
  }

  lemma {:induction false} SumUpdate(s: seq<int>, i: nat, v: int)
    requires i < |s|
    ensures Ints(s[i := v]) == Ints(s) - s[i] + v
  {
    var f := (x: int) => x;
    SumWithout(s, i, f);
    SumWithout(s[i := v], i, f);
    assert Without(s, i) == Without(s[i := v], i);
  }
}
