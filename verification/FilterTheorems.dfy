/** A shared link reconstructs the view: what survives the round trip through the URL, exactly. */
module FilterTheorems {
  import opened Results
  import opened Sums
  import opened Calendar
  import opened Text
  import opened Filters

  // ---- States a page can hold ----

  predicate HasComma(s: string) {
    exists i :: 0 <= i < |s| && s[i] == ','
  }

  /** A multi-select value as the parser leaves it. */
  predicate CleanValue(v: string) {
    v != "" && !IsSpace(v[0]) && !IsSpace(v[|v| - 1]) && !HasComma(v)
  }

  ghost predicate CleanValues(values: seq<string>) {
    Distinct(values) && forall v :: v in values ==> CleanValue(v)
  }

  predicate NormalRange(range: TimeRange) {
    if range.preset == Custom then HonourableRange(range.from, range.until) else range.from.None? && range.until.None?
  }

  ghost predicate Normalized(state: FilterState) {
    NormalRange(state.range) && forall d: Dimension :: CleanValues(state.filters[d])
  }

  // ---- Values ----

  lemma {:induction false} TrimStartClean(s: string)
    ensures var t := TrimStart(s);
      && (t != "" ==> !IsSpace(t[0])) && (!HasComma(s) ==> !HasComma(t))
      && (s != "" && !IsSpace(s[0]) ==> t == s)
  {
    if s != "" && IsSpace(s[0]) {
      TrimStartClean(s[1..]);
      assert !HasComma(s) ==> !HasComma(s[1..]);
    }
  }

  lemma {:induction false} TrimEndClean(s: string)
    ensures var t := TrimEnd(s);
      && (t != "" ==> !IsSpace(t[|t| - 1])) && (!HasComma(s) ==> !HasComma(t))
      && (s != "" && !IsSpace(s[|s| - 1]) ==> t == s)
      && (t != "" ==> s != "" && t[0] == s[0])
  {
    if s != "" && IsSpace(s[|s| - 1]) {
      TrimEndClean(s[..|s| - 1]);
      assert !HasComma(s) ==> !HasComma(s[..|s| - 1]);
    }
  }

  lemma {:induction false} TrimmedIsClean(part: string)
    requires !HasComma(part) && Trim(part) != ""
    ensures CleanValue(Trim(part))
  {
    TrimStartClean(part);
    TrimEndClean(TrimStart(part));
  }

  lemma {:induction false} CleanIsTrimmed(v: string)
    requires CleanValue(v)
    ensures Trim(v) == v
  {
    TrimStartClean(v);
    TrimEndClean(v);
  }

  lemma {:induction false} PartsHaveNoComma(s: string)
    ensures forall p :: p in Split(s) ==> !HasComma(p)
  {
    if s != "" {
      PartsHaveNoComma(s[1..]);
      var rest := Split(s[1..]);
      assert rest[0] in rest;
      if s[0] != ',' {
        assert forall p :: p in Split(s) ==> p == [s[0]] + rest[0] || p in rest;
      }
    }
  }

  lemma {:induction false} CollectedIsClean(parts: seq<string>)
    requires forall p :: p in parts ==> !HasComma(p)
    ensures CleanValues(Collected(parts))
  {
    if parts != [] {
      var n := |parts| - 1;
      CollectedIsClean(parts[..n]);
      if Trim(parts[n]) != "" {
        assert parts[n] in parts;
        TrimmedIsClean(parts[n]);
      }
    }
  }

  lemma {:induction false} MultiIsClean(raw: Option<string>)
    ensures CleanValues(Multi(raw))
  {
    if raw.Some? && raw.value != "" {
      PartsHaveNoComma(raw.value);
      CollectedIsClean(Split(raw.value));
    }
  }

  lemma {:induction false} SplitOfOne(v: string)
    requires !HasComma(v)
    ensures Split(v) == [v]
  {
    if v != "" {
      assert !HasComma(v[1..]) by {
        assert forall i :: 0 <= i < |v[1..]| ==> v[1..][i] == v[i + 1];
      }
      SplitOfOne(v[1..]);
      assert v == [v[0]] + v[1..];
      assert v[0] != ',';
    }
  }

  lemma {:induction false} SplitAtComma(v: string, rest: string)
    requires !HasComma(v)
    ensures Split(v + "," + rest) == [v] + Split(rest)
  {
    var s := v + "," + rest;
    if v == "" {
      assert s[1..] == rest;
    } else {
      assert !HasComma(v[1..]) by {
        assert forall i :: 0 <= i < |v[1..]| ==> v[1..][i] == v[i + 1];
      }
      SplitAtComma(v[1..], rest);
      assert s[1..] == v[1..] + "," + rest;
      assert v == [v[0]] + v[1..];
      assert s[0] == v[0] != ',';
    }
  }

  lemma {:induction false} SplitOfJoin(values: seq<string>)
    requires values != [] && forall v :: v in values ==> !HasComma(v)
    ensures Split(Join(values)) == values
  {
    if |values| == 1 {
      SplitOfOne(values[0]);
    } else {
      SplitOfJoin(values[1..]);
      SplitAtComma(values[0], Join(values[1..]));
    }
  }

  lemma {:induction false} CollectedKeepsClean(values: seq<string>)
    requires CleanValues(values)
    ensures Collected(values) == values
  {
    if values != [] {
      var n := |values| - 1;
      CollectedKeepsClean(values[..n]);
      assert values[n] in values;
      CleanIsTrimmed(values[n]);
    }
  }

  /** Joined and parsed again, a clean list is itself. */
  lemma {:induction false} MultiOfJoin(values: seq<string>)
    requires CleanValues(values) && values != []
    ensures Join(values) != "" && Multi(Some(Join(values))) == values
  {
    assert values[0] in values;
    SplitOfJoin(values);
    CollectedKeepsClean(values);
  }

  // ---- Names ----

  lemma {:induction false} DimensionNames(d: Dimension)
    ensures DimensionNamed(DimensionName(d)) == Some(d)
    ensures DimensionName(d) in MANAGED_KEYS && DimensionName(d) !in RANGE_KEYS
  {
    assert MANAGED_KEYS[4] == "feature" && MANAGED_KEYS[5] == "model" && MANAGED_KEYS[6] == "layer";
    assert MANAGED_KEYS[7] == "provider" && MANAGED_KEYS[8] == "account" && MANAGED_KEYS[9] == "agent";
    assert RANGE_KEYS[0][0] == 'r' && RANGE_KEYS[1] == "from" && RANGE_KEYS[2][0] == 't' && RANGE_KEYS[3][0] == 'g';
    assert |"feature"| == 7 && |"model"| == 5 && |"layer"| == 5 && |"provider"| == 8 && |"account"| == 7
      && |"agent"| == 5;
    assert "model"[0] == 'm' && "layer"[0] == 'l' && "agent"[0] == 'a' && "feature"[0] == 'f' && "account"[0] == 'a'
      && "provider"[0] == 'p';
  }

  lemma {:induction false} SameDimension(d: Dimension, e: Dimension)
    requires DimensionName(d) == DimensionName(e)
    ensures d == e
  {
    DimensionNames(d);
    DimensionNames(e);
  }

  lemma {:induction false} PresetNames(p: Preset)
    ensures PresetNamed(PresetName(p)) == Some(p)
  {
    assert "7d"[0] == '7' && "30d"[0] == '3' && "90d"[0] == '9' && "custom"[0] == 'c';
  }

  // ---- Query strings ----

  lemma {:induction false} GetAbsent(params: seq<Param>, name: string)
    ensures Get(params, name).None? <==> forall p :: p in params ==> p.name != name
  {
    if params != [] {
      GetAbsent(params[1..], name);
    }
  }

  lemma {:induction false} SetAppends(params: seq<Param>, name: string, value: string)
    requires Get(params, name).None?
    ensures Set(params, name, value) == params + [Param(name, value)]
  {
    if params != [] {
      SetAppends(params[1..], name, value);
    }
  }

  lemma {:induction false} GetSnoc(params: seq<Param>, last: Param, name: string)
    ensures Get(params + [last], name)
         == if Get(params, name).Some? then Get(params, name) else if last.name == name then Some(last.value) else None
  {
    if params == [] {
      assert params + [last] == [last];
    } else {
      assert (params + [last])[1..] == params[1..] + [last];
      GetSnoc(params[1..], last, name);
    }
  }

  /** Writing a name that is not there: it is there afterwards, and other names read the same. */
  lemma {:induction false} Written(params: seq<Param>, name: string, value: string, other: string)
    requires Get(params, name).None? && name in MANAGED_KEYS
    ensures Get(Set(params, name, value), other) == if other == name then Some(value) else Get(params, other)
  {
    SetAppends(params, name, value);
    GetSnoc(params, Param(name, value), other);
  }

  lemma {:induction false} DeletedIsGone(params: seq<Param>, name: string, other: string)
    ensures Get(Delete(params, name), name).None?
    ensures Get(params, other).None? ==> Get(Delete(params, name), other).None?
  {
    GetAbsent(Delete(params, name), name);
    GetAbsent(params, other);
    GetAbsent(Delete(params, name), other);
  }

  lemma {:induction false} DeleteKeepsUnmanaged(params: seq<Param>, name: string)
    requires name in MANAGED_KEYS
    ensures Filter(Delete(params, name), Unmanaged) == Filter(params, Unmanaged)
  {
    FilterImplied(params, NotNamed(name), Unmanaged);
  }

  lemma {:induction false} DeleteAllClears(params: seq<Param>, names: seq<string>)
    requires forall n :: n in names ==> n in MANAGED_KEYS
    ensures forall n :: n in names || Get(params, n).None? ==> Get(DeleteAll(params, names), n).None?
    ensures Filter(DeleteAll(params, names), Unmanaged) == Filter(params, Unmanaged)
    decreases |names|
  {
    if names != [] {
      assert names[0] in names;
      var rest := Delete(params, names[0]);
      DeleteAllClears(rest, names[1..]);
      DeleteKeepsUnmanaged(params, names[0]);
      forall n | n in names || Get(params, n).None? ensures Get(DeleteAll(params, names), n).None? {
        DeletedIsGone(params, names[0], n);
        assert n in names ==> n == names[0] || n in names[1..];
      }
    }
  }

  // ---- What serialising writes ----

  /** What a normal range writes under a name. */
  function RangeUnder(range: TimeRange, name: string): Option<string> {
    if name == "range" then if range.preset == Days30 then None else Some(PresetName(range.preset))
    else if range.preset != Custom then None
    else if name == "from" then range.from
    else if name == "to" then range.until
    else None
  }

  predicate IsRangeName(name: string) {
    name == "range" || name == "from" || name == "to"
  }

  lemma {:induction false} RangeNames()
    ensures "range" in MANAGED_KEYS && "from" in MANAGED_KEYS && "to" in MANAGED_KEYS && "groupBy" in MANAGED_KEYS
    ensures "range" != "from" && "range" != "to" && "from" != "to" && !IsRangeName("groupBy")
    ensures forall d :: !IsRangeName(DimensionName(d)) && DimensionName(d) != "groupBy"
  {
    assert MANAGED_KEYS[0] == "range" && MANAGED_KEYS[1] == "from" && MANAGED_KEYS[2] == "to"
      && MANAGED_KEYS[3] == "groupBy";
    assert "range"[0] == 'r' && "from"[0] == 'f' && "to"[0] == 't' && "groupBy"[0] == 'g';
    assert RANGE_KEYS[0] == "range" && RANGE_KEYS[1] == "from" && RANGE_KEYS[2] == "to" && RANGE_KEYS[3] == "groupBy";
    forall d ensures !IsRangeName(DimensionName(d)) && DimensionName(d) != "groupBy" {
      DimensionNames(d);
    }
  }

  lemma {:induction false} RangeWritten(params: seq<Param>, range: TimeRange, name: string)
    requires NormalRange(range)
    requires Get(params, "range").None? && Get(params, "from").None? && Get(params, "to").None?
    ensures Get(WriteRange(params, range), name) == if IsRangeName(name) then RangeUnder(range, name)
      else Get(params, name)
  {
    RangeNames();
    hide Set, Get;
    if range.preset != Days30 {
      var named := Set(params, "range", PresetName(range.preset));
      Written(params, "range", PresetName(range.preset), name);
      Written(params, "range", PresetName(range.preset), "from");
      Written(params, "range", PresetName(range.preset), "to");
      if range.preset == Custom {
        DatesNotEmpty(range);
        var dated := Set(named, "from", range.from.value);
        Written(named, "from", range.from.value, name);
        Written(named, "from", range.from.value, "to");
        Written(dated, "to", range.until.value, name);
      }
    }
  }

  lemma {:induction false} DatesNotEmpty(range: TimeRange)
    requires NormalRange(range) && range.preset == Custom
    ensures range.from.Some? && range.from.value != "" && range.until.Some? && range.until.value != ""
  {
    hide Fields, DateUTC, CivilOf;
  }

  lemma {:induction false} DimensionWritten(params: seq<Param>, last: Dimension, value: string, d: Dimension)
    requires Get(params, DimensionName(last)).None?
    ensures Get(Set(params, DimensionName(last), value), DimensionName(d)) == if d == last then Some(value)
      else Get(params, DimensionName(d))
  {
    DimensionNames(last);
    hide DimensionName, Get, Set, Filter;
    Written(params, DimensionName(last), value, DimensionName(d));
    if DimensionName(d) == DimensionName(last) {
      SameDimension(d, last);
    }
  }

  lemma {:induction false} DimensionsWritten(params: seq<Param>, filters: DimensionFilters, dims: seq<Dimension>,
                                             name: string)
    requires Distinct(dims)
    requires forall d: Dimension :: Get(params, DimensionName(d)).None?
    ensures var w := WriteDimensions(params, filters, dims);
      && (forall d: Dimension :: Get(w, DimensionName(d)) == if d in dims
           && filters[d] != [] then Some(Join(filters[d])) else None)
      && ((forall d: Dimension :: name != DimensionName(d)) ==> Get(w, name) == Get(params, name))
  {
    hide Filter, Set, Get, Join, DimensionName;
    if dims != [] {
      var n, last := |dims| - 1, dims[|dims| - 1];
      DimensionsWritten(params, filters, dims[..n], name);
      assert last !in dims[..n];
      assert forall d :: d in dims <==> d in dims[..n] || d == last;
      if filters[last] != [] {
        var before := WriteDimensions(params, filters, dims[..n]);
        DimensionNames(last);
        Written(before, DimensionName(last), Join(filters[last]), name);
        forall d: Dimension
          ensures Get(Set(before, DimensionName(last), Join(filters[last])), DimensionName(d))
               == if d == last then Some(Join(filters[last])) else Get(before, DimensionName(d))
        {
          DimensionWritten(before, last, Join(filters[last]), d);
        }
      }
    }
  }

  lemma {:induction false} AllDimensions()
    ensures Distinct(DIMENSIONS) && forall d: Dimension :: d in DIMENSIONS
  {
    forall d: Dimension ensures d in DIMENSIONS {
      assert DIMENSIONS[IndexOf(d)] == d;
    }
  }

  lemma {:induction false} AllCleared(base: seq<Param>)
    ensures var clear := DeleteAll(base, MANAGED_KEYS);
      && (forall n :: n in MANAGED_KEYS ==> Get(clear, n).None?)
      && Filter(clear, Unmanaged) == Filter(base, Unmanaged)
  {
    hide Get, Filter;
    DeleteAllClears(base, MANAGED_KEYS);
  }

  /** Every managed key reads back what the state says. */
  lemma {:induction false} SerialisedReads(state: FilterState, base: seq<Param>)
    requires Normalized(state)
    ensures var s := Serialised(state, base);
      && Get(s, "range") == RangeUnder(state.range, "range")
      && Get(s, "from") == RangeUnder(state.range, "from") && Get(s, "to") == RangeUnder(state.range, "to")
      && Get(s, "groupBy") == (if state.groupBy == DEFAULT_GROUP_BY then None else Some(DimensionName(state.groupBy)))
      && (forall d: Dimension :: Get(s, DimensionName(d)) == if state.filters[d] == [] then None
           else Some(Join(state.filters[d])))
  {
    RangeNames();
    AllCleared(base);
    AllDimensions();
    hide Get, Set, Filter, DeleteAll, WriteRange, WriteDimensions, Join, DimensionName, RangeUnder, NormalRange,
         CleanValues;
    var clear := DeleteAll(base, MANAGED_KEYS);
    var ranged := WriteRange(clear, state.range);
    var grouped := WriteGroupBy(ranged, state.groupBy);
    forall name ensures Get(ranged, name) == if IsRangeName(name) then RangeUnder(state.range, name)
      else Get(clear, name) {
      RangeWritten(clear, state.range, name);
    }
    RangeWritten(clear, state.range, "range");
    GroupByWritten(ranged, state.groupBy);
    forall d: Dimension ensures Get(grouped, DimensionName(d)).None? {
      DimensionNames(d);
    }
    DimensionsWritten(grouped, state.filters, DIMENSIONS, "range");
    DimensionsWritten(grouped, state.filters, DIMENSIONS, "from");
    DimensionsWritten(grouped, state.filters, DIMENSIONS, "to");
    DimensionsWritten(grouped, state.filters, DIMENSIONS, "groupBy");
  }

  lemma {:induction false} GroupByWritten(params: seq<Param>, groupBy: Dimension)
    requires Get(params, "groupBy").None?
    ensures var w := WriteGroupBy(params, groupBy);
      && Get(w, "groupBy") == (if groupBy == DEFAULT_GROUP_BY then None else Some(DimensionName(groupBy)))
      && (forall name :: name != "groupBy" ==> Get(w, name) == Get(params, name))
  {
    RangeNames();
    hide Get, Set, Filter;
    if groupBy != DEFAULT_GROUP_BY {
      forall name ensures name != "groupBy" ==>
        Get(Set(params, "groupBy", DimensionName(groupBy)), name) == Get(params, name) {
        Written(params, "groupBy", DimensionName(groupBy), name);
      }
      Written(params, "groupBy", DimensionName(groupBy), "groupBy");
    }
  }

  // ---- What parsing reads ----

  /** `get` is the first pair of that name. */
  lemma {:induction false} GetIsFirst(params: seq<Param>, name: string, k: nat)
    requires k < |params| && params[k].name == name && forall j :: 0 <= j < k ==> params[j].name != name
    ensures Get(params, name) == Some(params[k].value)
  {
    if k > 0 {
      GetIsFirst(params[1..], name, k - 1);
    }
  }

  /** Splitting loses nothing: joined again the parts are the string, and no part holds a comma. */
  lemma {:induction false} SplitIs(s: string)
    ensures Join(Split(s)) == s && forall p :: p in Split(s) ==> !HasComma(p)
  {
    PartsHaveNoComma(s);
    hide HasComma, Join;
    if s == "" {
      JoinOne(s);
    } else {
      SplitIs(s[1..]);
      var rest := Split(s[1..]);
      if s[0] == ',' {
        JoinEmpty(rest);
      } else {
        JoinLonger(s[0], rest);
      }
      assert s == [s[0]] + s[1..];
    }
  }

  lemma {:induction false} JoinOne(v: string)
    ensures Join([v]) == v
  {
  }

  lemma {:induction false} JoinEmpty(rest: seq<string>)
    requires rest != []
    ensures Join([""] + rest) == "," + Join(rest)
  {
    assert ([""] + rest)[1..] == rest;
  }

  lemma {:induction false} JoinLonger(c: char, rest: seq<string>)
    requires rest != []
    ensures Join([[c] + rest[0]] + rest[1..]) == [c] + Join(rest)
  {
    var longer := [[c] + rest[0]] + rest[1..];
    assert longer[1..] == rest[1..];
    if |rest| > 1 {
      Regroup(c, rest[0], "," + Join(rest[1..]));
      Regroup(c, rest[0] + ",", Join(rest[1..]));
    }
  }

  lemma {:induction false} Regroup(c: char, a: string, b: string)
    ensures ([c] + a) + b == [c] + (a + b)
  {
  }

  /** Trimming takes white space off both ends, and nothing else. */
  lemma {:induction false} TrimIs(s: string) returns (before: string, after: string)
    ensures s == before + Trim(s) + after && AllSpace(before) && AllSpace(after)
    ensures Trim(s) != "" ==> !IsSpace(Trim(s)[0]) && !IsSpace(Trim(s)[|Trim(s)| - 1])
  {
    before := StartIs(s);
    after := EndIs(TrimStart(s));
    TrimStartClean(s);
    TrimEndClean(TrimStart(s));
    assert s == before + (Trim(s) + after);
  }

  lemma {:induction false} StartIs(s: string) returns (before: string)
    ensures s == before + TrimStart(s) && AllSpace(before)
  {
    if s == "" || !IsSpace(s[0]) {
      before := "";
    } else {
      var rest := StartIs(s[1..]);
      before := [s[0]] + rest;
      assert s == [s[0]] + s[1..];
      Regroup(s[0], rest, TrimStart(s[1..]));
    }
  }

  lemma {:induction false} EndIs(s: string) returns (after: string)
    ensures s == TrimEnd(s) + after && AllSpace(after)
  {
    if s == "" || !IsSpace(s[|s| - 1]) {
      after := "";
    } else {
      var rest := EndIs(s[..|s| - 1]);
      after := rest + [s[|s| - 1]];
      assert s == s[..|s| - 1] + [s[|s| - 1]];
    }
  }

  /** The values collected: every trimmed part that is not blank, and nothing else. */
  lemma {:induction false} CollectedAre(parts: seq<string>)
    ensures forall v :: v in Collected(parts) <==> v != "" && exists p :: p in parts && Trim(p) == v
  {
    if parts != [] {
      CollectedAre(parts[..|parts| - 1]);
      assert forall p :: p in parts <==> p in parts[..|parts| - 1] || p == parts[|parts| - 1];
    }
  }

  /** A custom range that can be honoured: both ends real days, in order. */
  predicate Honoured(raw: Option<string>, from: Option<string>, until: Option<string>) {
    && raw == Some("custom") && from.Some? && until.Some? && IsDay(from.value) && IsDay(until.value)
    && !StringLess(until.value, from.value)
  }

  /** The state read off any query string, well formed or not: an unknown or missing preset, or a custom
      range without two real days in order, is the default range; an unknown or missing dimension is the
      default grouping; and a dimension's values are the trimmed parts of its first parameter. */
  ghost predicate Reads(state: FilterState, params: seq<Param>) {
    var raw, from, until, group := Get(params, "range"), Get(params, "from"), Get(params, "to"), Get(params, "groupBy");
    && state.range ==
         (if raw == Some("7d") then TimeRange(Days7, None, None)
          else if raw == Some("90d") then TimeRange(Days90, None, None)
          else if Honoured(raw, from, until) then TimeRange(Custom, from, until)
          else TimeRange(Days30, None, None))
    && (forall d: Dimension :: group == Some(DimensionName(d)) ==> state.groupBy == d)
    && ((forall d: Dimension :: group != Some(DimensionName(d))) ==> state.groupBy == Layer)
    && forall d: Dimension :: forall v :: v in state.filters[d] <==>
         && v != "" && Get(params, DimensionName(d)).Some?
         && exists p :: p in Split(Get(params, DimensionName(d)).value) && Trim(p) == v
  }

  lemma {:induction false} MultiIs(raw: Option<string>)
    ensures forall v :: v in Multi(raw) <==> v != "" && raw.Some? && exists p :: p in Split(raw.value) && Trim(p) == v
  {
    if raw.Some? {
      CollectedAre(Split(raw.value));
      if raw.value == "" {
        assert Split(raw.value) == [""];
      }
    }
  }

  lemma {:induction false} GroupRead(raw: Option<string>)
    ensures forall d: Dimension :: raw == Some(DimensionName(d)) ==> GroupByOf(raw) == d
    ensures (forall d: Dimension :: raw != Some(DimensionName(d))) ==> GroupByOf(raw) == Layer
  {
    forall d: Dimension | raw == Some(DimensionName(d)) ensures GroupByOf(raw) == d {
      DimensionNames(d);
    }
    if GroupByOf(raw) != Layer {
      assert raw == Some(DimensionName(GroupByOf(raw)));
    }
  }

  lemma {:induction false} ParseReads(params: seq<Param>)
    ensures Reads(Parsed(params), params)
  {
    hide Get, Multi, IsIsoDate, IsDay, Split, Trim, GroupByOf, DimensionName, StringLess;
    GroupRead(Get(params, "groupBy"));
    if Get(params, "from").Some? {
      IsIsoDateExactly(Get(params, "from").value);
    }
    if Get(params, "to").Some? {
      IsIsoDateExactly(Get(params, "to").value);
    }
    forall d: Dimension
      ensures forall v :: v in Parsed(params).filters[d] <==>
        && v != "" && Get(params, DimensionName(d)).Some?
        && exists p :: p in Split(Get(params, DimensionName(d)).value) && Trim(p) == v
    {
      MultiIs(Get(params, DimensionName(d)));
    }
  }

  // ---- The round trip ----

  /** Anything parsed is normal, so any page state begins normal. */
  lemma {:induction false} ParseNormalizes(params: seq<Param>)
    ensures Normalized(Parsed(params))
  {
    hide Get, Multi, IsIsoDate, CleanValues;
    forall d: Dimension ensures CleanValues(Parsed(params).filters[d]) {
      MultiIsClean(Get(params, DimensionName(d)));
    }
  }

  lemma {:induction false} RangeReadBack(range: TimeRange)
    requires NormalRange(range)
    ensures RangeOf(RangeUnder(range, "range"), RangeUnder(range, "from"), RangeUnder(range, "to")) == range
  {
    RangeNames();
    PresetNames(range.preset);
    hide IsIsoDate, PresetName, PresetNamed;
  }

  /** Serialising over any base and parsing returns the state, exactly when the state is normal. */
  lemma {:induction false} RoundTripsExactly(state: FilterState, base: seq<Param>)
    ensures Parsed(Serialised(state, base)) == state <==> Normalized(state)
  {
    ParseNormalizes(Serialised(state, base));
    if Normalized(state) {
      SerialisedReads(state, base);
      RangeReadBack(state.range);
      hide Get, Serialised, RangeOf, RangeUnder, Multi, NormalRange, Filter, Join;
      var back := Parsed(Serialised(state, base));
      if state.groupBy != DEFAULT_GROUP_BY {
        DimensionNames(state.groupBy);
      }
      forall d: Dimension ensures back.filters[d] == state.filters[d] {
        if state.filters[d] == [] {
          NothingSelected();
        } else {
          MultiOfJoin(state.filters[d]);
        }
      }
      assert back.filters == state.filters;
    }
  }

  lemma {:induction false} NothingSelected()
    ensures Multi(None) == []
  {
  }

  lemma {:induction false} SetKeepsUnmanaged(params: seq<Param>, name: string, value: string)
    requires name in MANAGED_KEYS
    ensures Filter(Set(params, name, value), Unmanaged) == Filter(params, Unmanaged)
  {
    if params != [] {
      if params[0].name == name {
        DeleteKeepsUnmanaged(params[1..], name);
      } else {
        SetKeepsUnmanaged(params[1..], name, value);
      }
    }
  }

  lemma {:induction false} DimensionsKeepUnmanaged(params: seq<Param>, filters: DimensionFilters, dims: seq<Dimension>)
    ensures Filter(WriteDimensions(params, filters, dims), Unmanaged) == Filter(params, Unmanaged)
  {
    hide Filter, Set, Join, DimensionName;
    if dims != [] {
      var n, last := |dims| - 1, dims[|dims| - 1];
      DimensionsKeepUnmanaged(params, filters, dims[..n]);
      DimensionNames(last);
      SetKeepsUnmanaged(WriteDimensions(params, filters, dims[..n]), DimensionName(last), Join(filters[last]));
    }
  }

  lemma {:induction false} RangeKeepsUnmanaged(params: seq<Param>, range: TimeRange)
    ensures Filter(WriteRange(params, range), Unmanaged) == Filter(params, Unmanaged)
  {
    RangeNames();
    hide Filter, Set;
    if range.preset != Days30 {
      var named := Set(params, "range", PresetName(range.preset));
      SetKeepsUnmanaged(params, "range", PresetName(range.preset));
      if range.from.Some? && range.until.Some? {
        SetKeepsUnmanaged(named, "from", range.from.value);
        SetKeepsUnmanaged(Set(named, "from", range.from.value), "to", range.until.value);
      }
    }
  }

  /** Other owners' parameters survive serialising with their values and their order, whatever the
      state that is written, normal or not. */
  lemma {:induction false} UnmanagedSurvive(state: FilterState, base: seq<Param>)
    ensures Filter(Serialised(state, base), Unmanaged) == Filter(base, Unmanaged)
  {
    RangeNames();
    AllCleared(base);
    hide Filter, Set, Get, DeleteAll, WriteRange, WriteDimensions;
    var clear := DeleteAll(base, MANAGED_KEYS);
    var ranged := WriteRange(clear, state.range);
    RangeKeepsUnmanaged(clear, state.range);
    SetKeepsUnmanaged(ranged, "groupBy", DimensionName(state.groupBy));
    DimensionsKeepUnmanaged(WriteGroupBy(ranged, state.groupBy), state.filters, DIMENSIONS);
  }

  /** For any query string at all, parsing after serialising after parsing is parsing. */
  lemma {:induction false} ParseIsStable(params: seq<Param>, base: seq<Param>)
    ensures Parsed(Serialised(Parsed(params), base)) == Parsed(params)
  {
    hide Parsed, Serialised, Normalized;
    ParseNormalizes(params);
    RoundTripsExactly(Parsed(params), base);
  }

  /** The canonical view has a clean URL, and only it: nothing managed is written exactly for the
      default state. */
  lemma {:induction false} DefaultIsClean(state: FilterState, base: seq<Param>)
    requires Normalized(state)
    ensures (forall n :: n in MANAGED_KEYS ==> Get(Serialised(state, base), n).None?) <==> state == DEFAULT_STATE
  {
    var s := Serialised(state, base);
    if state == DEFAULT_STATE {
      AllCleared(base);
      DefaultWritesNothing(base);
    }
    if forall n :: n in MANAGED_KEYS ==> Get(s, n).None? {
      SerialisedReads(state, base);
      RangeNames();
      hide Get, Serialised, Filter, Join;
      forall d: Dimension ensures state.filters[d] == [] {
        DimensionNames(d);
      }
      assert state.filters == NO_FILTERS;
    }
  }

  lemma {:induction false} DefaultWritesNothing(base: seq<Param>)
    ensures Serialised(DEFAULT_STATE, base) == DeleteAll(base, MANAGED_KEYS)
  {
    NoDimensionsWritten(DeleteAll(base, MANAGED_KEYS), DIMENSIONS);
  }

  lemma {:induction false} NoDimensionsWritten(params: seq<Param>, dims: seq<Dimension>)
    ensures WriteDimensions(params, NO_FILTERS, dims) == params
  {
    if dims != [] {
      NoDimensionsWritten(params, dims[..|dims| - 1]);
    }
  }

  // ---- The setters ----

  datatype Setter =
    | SetPreset(preset: Preset)
    | SetCustomRange(from: string, until: string)
    | SetGroupBy(groupBy: Dimension)
    | Toggle(dim: Dimension, value: string)
    | Clear(cleared: Dimension)
    | ClearAll

  /** What the setters' types ask for: a preset is a fixed one. Toggled values and the dates of a custom
      range may be any strings. */
  predicate Callable(set_: Setter) {
    set_.SetPreset? ==> set_.preset != Custom
  }

  function Apply(state: FilterState, set_: Setter): FilterState
    requires Callable(set_)
  {
    match set_
    case SetPreset(preset) => WithRangePreset(state, preset)
    case SetCustomRange(from, until) => WithCustomRange(state, from, until)
    case SetGroupBy(groupBy) => WithGroupBy(state, groupBy)
    case Toggle(dim, value) => ToggleDimensionValue(state, dim, value)
    case Clear(dim) => ClearDimension(state, dim)
    case ClearAll => ClearAllFilters(state)
  }

  function ApplyAll(state: FilterState, setters: seq<Setter>): FilterState
    requires forall x :: x in setters ==> Callable(x)
  {
    if setters == [] then state else Apply(ApplyAll(state, setters[..|setters| - 1]), setters[|setters| - 1])
  }

  /** What each setter does, field by field: the one it is called for takes the value it is called with, and
      the others stay. A custom range is taken only when both dates are real days in order. Toggling turns
      one membership over and keeps the other values in their order. */
  ghost predicate SetsExactly(state: FilterState, set_: Setter, next: FilterState) {
    && (!set_.SetPreset? && !set_.SetCustomRange? ==> next.range == state.range)
    && (!set_.SetGroupBy? ==> next.groupBy == state.groupBy)
    && (set_.SetPreset? ==> next.range == TimeRange(set_.preset, None, None))
    && (set_.SetCustomRange? ==>
         next.range == if IsDay(set_.from) && IsDay(set_.until) && !StringLess(set_.until, set_.from)
           then TimeRange(Custom, Some(set_.from), Some(set_.until)) else state.range)
    && (set_.SetGroupBy? ==> next.groupBy == set_.groupBy)
    && forall d: Dimension :: TogglesExactly(state.filters[d], next.filters[d], d, set_)
  }

  ghost predicate TogglesExactly(before: seq<string>, after: seq<string>, d: Dimension, set_: Setter) {
    match set_
    case Toggle(dim, value) =>
      if dim != d then after == before
      else (value in after <==> value !in before) && Filter(after, OtherThan(value)) == Filter(before, OtherThan(value))
    case Clear(dim) => if dim == d then after == [] else after == before
    case ClearAll => after == []
    case _ => after == before
  }

  lemma {:induction false} SettersDo(state: FilterState, set_: Setter)
    requires Callable(set_)
    ensures SetsExactly(state, set_, Apply(state, set_))
  {
    hide IsIsoDate, IsDay, StringLess, Filter;
    if set_.SetCustomRange? {
      IsIsoDateExactly(set_.from);
      IsIsoDateExactly(set_.until);
    }
    if set_.Toggle? {
      ToggleKeepsOthers(state.filters[set_.dim], set_.value);
    }
  }

  lemma {:induction false} ToggleKeepsOthers(values: seq<string>, value: string)
    ensures var next := if value in values then Filter(values, OtherThan(value)) else values + [value];
      (value in next <==> value !in values) && Filter(next, OtherThan(value)) == Filter(values, OtherThan(value))
  {
    if value in values {
      FilterImplied(values, OtherThan(value), OtherThan(value));
    } else {
      FilterConcat(values, [value], OtherThan(value));
      FilterNone([value], OtherThan(value));
    }
  }

  /** What every setter keeps, whatever it is called with: a normal range, and no value selected twice. */
  ghost predicate WellFormed(state: FilterState) {
    NormalRange(state.range) && forall d: Dimension :: Distinct(state.filters[d])
  }

  ghost predicate AllValues(state: FilterState, clean: string -> bool) {
    forall d: Dimension :: forall v :: v in state.filters[d] ==> clean(v)
  }

  const IsClean: string -> bool := (v: string) => CleanValue(v)

  lemma {:induction false} NormalExactly(state: FilterState)
    ensures Normalized(state) <==> WellFormed(state) && AllValues(state, IsClean)
  {
  }

  /** Toggling keeps values distinct, and adds at most the value toggled. */
  lemma {:induction false} ToggledStaysDistinct(values: seq<string>, value: string)
    requires Distinct(values)
    ensures var next := if value in values then Filter(values, OtherThan(value)) else values + [value];
      Distinct(next) && forall v :: v in next ==> v in values || v == value
  {
    if value in values {
      FilterKeepsDistinct(values, OtherThan(value));
    }
  }

  lemma {:induction false} SetterKeepsForm(state: FilterState, set_: Setter)
    requires WellFormed(state) && Callable(set_)
    ensures var next := Apply(state, set_);
      && WellFormed(next)
      && forall d: Dimension :: forall v :: v in next.filters[d] ==> v in state.filters[d] || set_ == Toggle(d, v)
  {
    hide IsIsoDate, Filter;
    if set_.Toggle? {
      ToggledStaysDistinct(state.filters[set_.dim], set_.value);
    }
  }

  lemma {:induction false} SettersKeepForm(state: FilterState, setters: seq<Setter>)
    requires WellFormed(state) && forall x :: x in setters ==> Callable(x)
    ensures var next := ApplyAll(state, setters);
      && WellFormed(next)
      && forall d: Dimension :: forall v :: v in next.filters[d] ==> v in state.filters[d] || Toggle(d, v) in setters
  {
    hide WellFormed, Apply;
    if setters != [] {
      var n := |setters| - 1;
      SettersKeepForm(state, setters[..n]);
      SetterKeepsForm(ApplyAll(state, setters[..n]), setters[n]);
    }
  }

  /** Every state a user can reach, from any link by any calls of the setters, is reconstructed by the
      link it serialises to exactly when the values left selected are clean: not blank, no comma, no outer
      spaces. Values of a link always are, so toggling clean values on is enough. Everyone else's
      parameters survive in any case. */
  lemma {:induction false} SharedLinkReconstructs(link: seq<Param>, setters: seq<Setter>, base: seq<Param>)
    requires forall x :: x in setters ==> Callable(x)
    ensures var state := ApplyAll(Parsed(link), setters);
      && (Parsed(Serialised(state, base)) == state <==> AllValues(state, IsClean))
      && ((forall x :: x in setters && x.Toggle? ==> CleanValue(x.value)) ==> AllValues(state, IsClean))
      && Filter(Serialised(state, base), Unmanaged) == Filter(base, Unmanaged)
  {
    hide Parsed, Serialised, Filter, Normalized, WellFormed, ApplyAll;
    var state := ApplyAll(Parsed(link), setters);
    ParseNormalizes(link);
    NormalExactly(Parsed(link));
    SettersKeepForm(Parsed(link), setters);
    NormalExactly(state);
    RoundTripsExactly(state, base);
    UnmanagedSurvive(state, base);
    if forall x :: x in setters && x.Toggle? ==> CleanValue(x.value) {
      forall d: Dimension, v | v in state.filters[d] ensures IsClean(v) {
        assert v in Parsed(link).filters[d] || Toggle(d, v) in setters;
      }
    }
  }

  /** A value with a comma is lost: no link at all parses to the state after it is toggled on. */
  lemma {:induction false} CommaIsLost(link: seq<Param>, params: seq<Param>)
    ensures Parsed(params) != ToggleDimensionValue(Parsed(link), Model, "a,b")
  {
    var state := ToggleDimensionValue(Parsed(link), Model, "a,b");
    ParseNormalizes(link);
    ParseNormalizes(params);
    hide Parsed;
    assert "a,b"[1] == ',' && HasComma("a,b");
    assert "a,b" in state.filters[Model];
  }
}
