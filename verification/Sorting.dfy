/** JavaScript's `Array.prototype.sort`: a stable sort under a comparator. Sorted, a permutation and
    stable together fix the result, so one definition serves every comparator in the dashboard. */
module Sorting {
  import opened Sums

  ghost predicate TotalPreorder<T(!new)>(le: (T, T) -> bool) {
    && (forall x, y :: le(x, y) || le(y, x))
    && (forall x, y, z :: le(x, y) && le(y, z) ==> le(x, z))
  }

  ghost predicate SortedBy<T>(s: seq<T>, le: (T, T) -> bool) {
    forall i, j :: 0 <= i < j < |s| ==> le(s[i], s[j])
  }

  /** Inserts `x` in front of the first element that does not have to precede it. */
  function Insert<T>(x: T, s: seq<T>, le: (T, T) -> bool): seq<T> {
    if s == [] || le(x, s[0]) then [x] + s else [s[0]] + Insert(x, s[1..], le)
  }

  function Sort<T>(s: seq<T>, le: (T, T) -> bool): seq<T> {
    if s == [] then [] else Insert(s[0], Sort(s[1..], le), le)
  }

  lemma {:induction false} InsertPermutes<T>(x: T, s: seq<T>, le: (T, T) -> bool)
    ensures multiset(Insert(x, s, le)) == multiset{x} + multiset(s)
  {
    if s != [] && !le(x, s[0]) {
      InsertPermutes(x, s[1..], le);
      assert s == [s[0]] + s[1..];
    }
  }

  lemma {:induction false} SortPermutes<T>(s: seq<T>, le: (T, T) -> bool)
    ensures multiset(Sort(s, le)) == multiset(s)
    ensures |Sort(s, le)| == |s|
  {
    if s != [] {
      SortPermutes(s[1..], le);
      InsertPermutes(s[0], Sort(s[1..], le), le);
      assert s == [s[0]] + s[1..];
    }
    assert |multiset(Sort(s, le))| == |multiset(s)|;
  }

  lemma {:induction false} SortMembers<T>(s: seq<T>, le: (T, T) -> bool)
    ensures forall x :: x in Sort(s, le) <==> x in s
  {
    SortPermutes(s, le);
    forall x ensures x in Sort(s, le) <==> x in s {
      assert x in Sort(s, le) <==> x in multiset(Sort(s, le));
      assert x in s <==> x in multiset(s);
    }
  }

  lemma {:induction false} InsertSorts<T(!new)>(x: T, s: seq<T>, le: (T, T) -> bool)
    requires TotalPreorder(le) && SortedBy(s, le)
    ensures SortedBy(Insert(x, s, le), le)
  {
    if s != [] && !le(x, s[0]) {
      InsertSorts(x, s[1..], le);
      InsertPermutes(x, s[1..], le);
      var rest := Insert(x, s[1..], le);
      forall y | y in rest ensures le(s[0], y) {
        assert y in multiset(rest);
        assert y == x || y in multiset(s[1..]);
      }
    }
  }

  lemma {:induction false} SortSorts<T(!new)>(s: seq<T>, le: (T, T) -> bool)
    requires TotalPreorder(le)
    ensures SortedBy(Sort(s, le), le)
  {
    if s != [] {
      SortSorts(s[1..], le);
      InsertSorts(s[0], Sort(s[1..], le), le);
    }
  }

  ghost predicate NeverTies<T>(s: seq<T>, le: (T, T) -> bool) {
    forall i, j :: 0 <= i < |s| && 0 <= j < |s| && le(s[i], s[j]) && le(s[j], s[i]) ==> s[i] == s[j]
  }

  lemma {:induction false} SameMembers<T>(s: seq<T>, t: seq<T>)
    requires multiset(s) == multiset(t)
    ensures |s| == |t|
    ensures forall x :: x in s <==> x in t
  {
    assert |s| == |multiset(s)| == |multiset(t)| == |t|;
    forall x ensures x in s <==> x in t {
      assert x in s <==> x in multiset(s);
      assert x in t <==> x in multiset(t);
    }
  }

  lemma {:induction false} HeadsAgree<T(!new)>(s: seq<T>, t: seq<T>, le: (T, T) -> bool)
    requires TotalPreorder(le) && SortedBy(s, le) && SortedBy(t, le) && s != []
    requires multiset(s) == multiset(t) && NeverTies(s, le)
    ensures t != [] && s[0] == t[0]
  {
    SameMembers(s, t);
    assert s[0] in s;
    var i :| 0 <= i < |t| && t[i] == s[0];
    assert t[0] in t;
    assert t[0] in s;
    var j :| 0 <= j < |s| && s[j] == t[0];
    assert le(s[0], s[j]) && le(t[0], t[i]);
  }

  lemma {:induction false} TailsAgree<T>(s: seq<T>, t: seq<T>)
    requires multiset(s) == multiset(t) && s != [] && t != [] && s[0] == t[0]
    ensures multiset(s[1..]) == multiset(t[1..])
  {
    MultisetWithout(s, 0);
    MultisetWithout(t, 0);
    assert Without(s, 0) == s[1..] && Without(t, 0) == t[1..];
  }

  /** Two sorted arrangements of the same elements are the same arrangement, when `le` never ties
      two different elements of them. */
  lemma {:induction false} SortedUnique<T(!new)>(s: seq<T>, t: seq<T>, le: (T, T) -> bool)
    requires TotalPreorder(le) && SortedBy(s, le) && SortedBy(t, le)
    requires multiset(s) == multiset(t) && NeverTies(s, le)
    ensures s == t
  {
    if s == [] {
      assert |t| == |multiset(t)| == |multiset(s)| == 0;
    } else {
      HeadsAgree(s, t, le);
      TailsAgree(s, t);
      SortedUnique(s[1..], t[1..], le);
      assert s == [s[0]] + s[1..] && t == [t[0]] + t[1..];
    }
  }

  ghost predicate Tied<T>(le: (T, T) -> bool, x: T, y: T) {
    le(x, y) && le(y, x)
  }

  lemma {:induction false} InsertStable<T(!new)>(x: T, s: seq<T>, le: (T, T) -> bool, y: T)
    requires TotalPreorder(le) && SortedBy(s, le)
    ensures Ties(Insert(x, s, le), le, y) == Ties([x] + s, le, y)
  {
    if s == [] || le(x, s[0]) {
    } else {
      InsertStable(x, s[1..], le, y);
      assert ([x] + s)[1..] == s;
      assert ([x] + s[1..])[1..] == s[1..];
    }
  }

  /** The elements of `s` that tie with `y`, in order. */
  ghost function Ties<T>(s: seq<T>, le: (T, T) -> bool, y: T): seq<T> {
    if s == [] then [] else (if Tied(le, s[0], y) then [s[0]] else []) + Ties(s[1..], le, y)
  }

  /** Stability: sorting leaves elements that tie with one another in their original order. */
  lemma {:induction false} SortStable<T(!new)>(s: seq<T>, le: (T, T) -> bool, y: T)
    requires TotalPreorder(le)
    ensures Ties(Sort(s, le), le, y) == Ties(s, le, y)
  {
    if s != [] {
      SortStable(s[1..], le, y);
      SortSorts(s[1..], le);
      InsertStable(s[0], Sort(s[1..], le), le, y);
      assert ([s[0]] + Sort(s[1..], le))[1..] == Sort(s[1..], le);
    }
  }

  lemma {:induction false} SortOfSorted<T>(s: seq<T>, le: (T, T) -> bool)
    requires SortedBy(s, le)
    ensures Sort(s, le) == s
  {
    if s != [] {
      SortOfSorted(s[1..], le);
    }
  }

  lemma {:induction false} InsertPasses<T>(x: T, s: seq<T>, le: (T, T) -> bool)
    ensures s != [] && !le(x, s[0]) ==> Insert(x, s, le) == [s[0]] + Insert(x, s[1..], le)
    ensures s == [] || le(x, s[0]) ==> Insert(x, s, le) == [x] + s
  {
  }

  lemma {:induction false} SortOfSuffix<T>(s: seq<T>, i: nat, le: (T, T) -> bool)
    requires i <= |s|
    ensures Sort(s[i..], le) == if i == |s| then [] else Insert(s[i], Sort(s[i + 1..], le), le)
  {
    if i < |s| {
      assert s[i..][1..] == s[i + 1..];
    }
  }

  /** One step of the sort: the first element is shifted into the sorted rest. */
  method ShiftIn<T>(a: array<T>, i: nat, le: (T, T) -> bool)
    requires i < a.Length
    modifies a
    ensures a[..i] == old(a[..i])
    ensures a[i..] == Insert(old(a[i]), old(a[i + 1..]), le)
  {
    hide Insert;
    ghost var before, rest, passed := a[..], a[i + 1..], [];
    var x, j := a[i], i;
    InsertPasses(x, rest, le);
    while j + 1 < a.Length && !le(x, a[j + 1])
      invariant i <= j < a.Length && |passed| == j - i
      invariant forall k :: 0 <= k < i ==> a[k] == before[k]
      invariant forall k :: i <= k < j ==> a[k] == passed[k - i]
      invariant forall k :: j < k < a.Length ==> a[k] == rest[k - i - 1]
      invariant Insert(x, rest, le) == passed + Insert(x, rest[j - i..], le)
    {
      InsertPasses(x, rest[j - i..], le);
      StepOver(x, rest, passed, j - i, le);
      passed := passed + [rest[j - i]];
      a[j] := a[j + 1];
      j := j + 1;
    }
    InsertPasses(x, rest[j - i..], le);
    a[j] := x;
    assert a[..i] == before[..i];
    SamePointwise(a[i..], passed, x, rest, j - i);
  }

  lemma {:induction false} SamePointwise<T>(now: seq<T>, passed: seq<T>, x: T, rest: seq<T>, j: nat)
    requires |passed| == j <= |rest| && |now| == |rest| + 1 && now[j] == x
    requires forall k :: 0 <= k < j ==> now[k] == passed[k]
    requires forall k :: j < k < |now| ==> now[k] == rest[k - 1]
    ensures now == passed + ([x] + rest[j..])
  {
  }

  lemma {:induction false} StepOver<T>(x: T, rest: seq<T>, passed: seq<T>, j: nat, le: (T, T) -> bool)
    requires j < |rest| && !le(x, rest[j])
    ensures passed + Insert(x, rest[j..], le) == passed + [rest[j]] + Insert(x, rest[j + 1..], le)
  {
    assert rest[j..][1..] == rest[j + 1..];
  }

  method ArrayOf<T>(s: seq<T>) returns (a: array<T>)
    ensures fresh(a) && a[..] == s
  {
    a := new T[|s|](i requires 0 <= i < |s| => s[i]);
  }

  /** `a.sort(le)`: the array is reordered in place. */
  method SortInPlace<T>(a: array<T>, le: (T, T) -> bool)
    modifies a
    ensures a[..] == Sort(old(a[..]), le)
  {
    hide Sort, Insert;
    ghost var was := a[..];
    var i := a.Length;
    SortOfSuffix(was, i, le);
    while i > 0
      invariant 0 <= i <= a.Length
      invariant a[..i] == was[..i]
      invariant a[i..] == Sort(was[i..], le)
    {
      i := i - 1;
      SortOfSuffix(was, i, le);
      assert a[..i + 1][..i] == was[..i + 1][..i];
      assert a[i] == a[..i + 1][i] == was[i];
      ShiftIn(a, i, le);
    }
    assert a[0..] == a[..] && was[0..] == was;
  }
}
