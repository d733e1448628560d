/** The URL filter state (web/lib/filters.ts). A query string is an ordered list of name-value pairs;
    `get`, `delete` and `set` are those of URLSearchParams (section 6.2 of the WHATWG URL Standard). */
module Filters {
  import opened Results
  import opened Sums
  import opened Calendar
  import opened Text

  // ---- The query string ----

  datatype Param = Param(name: string, value: string)

  function NotNamed(name: string): Param -> bool {
    (p: Param) => p.name != name
  }

  /** The first value of that name. */
  function Get(params: seq<Param>, name: string): Option<string> {
    if params == [] then None
    else if params[0].name == name then Some(params[0].value)
    else Get(params[1..], name)
  }

  function Delete(params: seq<Param>, name: string): seq<Param> {
    Filter(params, NotNamed(name))
  }

  /** Replaces the first value of that name and drops the others, or appends. */
  function Set(params: seq<Param>, name: string, value: string): seq<Param> {
    if params == [] then [Param(name, value)]
    else if params[0].name == name then [Param(name, value)] + Delete(params[1..], name)
    else [params[0]] + Set(params[1..], name, value)
  }

  class SearchParams {
    var list: seq<Param>

    constructor (list: seq<Param>)
      ensures this.list == list
    {
      this.list := list;
    }

    method Remove(name: string)
      modifies this
      ensures list == Delete(old(list), name)
    {
      list := Delete(list, name);
    }

    method Put(name: string, value: string)
      modifies this
      ensures list == Set(old(list), name, value)
    {
      list := Set(list, name, value);
    }
  }

  // ---- The state ----

  datatype Preset = Days7 | Days30 | Days90 | Custom

  datatype TimeRange = TimeRange(preset: Preset, from: Option<string>, until: Option<string>)

  datatype Dimension = Feature | Model | Layer | Provider | Account | Agent

  const DIMENSIONS: seq<Dimension> := [Feature, Model, Layer, Provider, Account, Agent]

  const NO_FILTERS: map<Dimension, seq<string>> := map d: Dimension :: []

  type DimensionFilters = f: map<Dimension, seq<string>> | forall d: Dimension :: d in f witness NO_FILTERS

  datatype FilterState = FilterState(range: TimeRange, groupBy: Dimension, filters: DimensionFilters)

  function PresetName(preset: Preset): string {
    match preset
    case Days7 => "7d"
    case Days30 => "30d"
    case Days90 => "90d"
    case Custom => "custom"
  }

  function PresetNamed(name: string): Option<Preset> {
    if name == "7d" then Some(Days7)
    else if name == "30d" then Some(Days30)
    else if name == "90d" then Some(Days90)
    else if name == "custom" then Some(Custom)
    else None
  }

  function DimensionName(d: Dimension): string {
    match d
    case Feature => "feature"
    case Model => "model"
    case Layer => "layer"
    case Provider => "provider"
    case Account => "account"
    case Agent => "agent"
  }

  function DimensionNamed(name: string): Option<Dimension> {
    if name == "feature" then Some(Feature)
    else if name == "model" then Some(Model)
    else if name == "layer" then Some(Layer)
    else if name == "provider" then Some(Provider)
    else if name == "account" then Some(Account)
    else if name == "agent" then Some(Agent)
    else None
  }

  const DEFAULT_RANGE := TimeRange(Days30, None, None)
  const DEFAULT_GROUP_BY := Layer
  const DEFAULT_STATE := FilterState(DEFAULT_RANGE, DEFAULT_GROUP_BY, NO_FILTERS)

  const RANGE_KEYS: seq<string> := ["range", "from", "to", "groupBy"]
  const MANAGED_KEYS: seq<string> := RANGE_KEYS + ["feature", "model", "layer", "provider", "account", "agent"]

  const Unmanaged: Param -> bool := (p: Param) => p.name !in MANAGED_KEYS

  // ---- Multi-select values ----

  /** `split(",")`: always at least one part. */
  function Split(s: string): (parts: seq<string>)
    ensures parts != []
  {
    if s == "" then [""]
    else
      var rest := Split(s[1..]);
      if s[0] == ',' then [""] + rest else [[s[0]] + rest[0]] + rest[1..]
  }

  /** `join(",")` */
  function Join(values: seq<string>): string {
    if values == [] then "" else if |values| == 1 then values[0] else values[0] + "," + Join(values[1..])
  }

  /** Trimmed parts, blanks dropped, repeats dropped, in order. */
  function Collected(parts: seq<string>): seq<string> {
    if parts == [] then []
    else
      var before, v := Collected(parts[..|parts| - 1]), Trim(parts[|parts| - 1]);
      if v == "" || v in before then before else before + [v]
  }

  function Multi(raw: Option<string>): seq<string> {
    if raw.None? || raw.value == "" then [] else Collected(Split(raw.value))
  }

  method ParseMulti(raw: Option<string>) returns (out: seq<string>)
    ensures out == Multi(raw)
  {
    if raw.None? || raw.value == "" {
      return [];
    }
    var seen: set<string> := {};
    out := [];
    var parts := Split(raw.value);
    for i := 0 to |parts|
      invariant out == Collected(parts[..i])
      invariant forall v :: v in seen <==> v in out
    {
      assert parts[..i + 1][..i] == parts[..i];
      var v := Trim(parts[i]);
      if v != "" && v !in seen {
        seen := seen + {v};
        out := out + [v];
      }
    }
    assert parts[..|parts|] == parts;
  }

  // ---- Parsing ----

  /** `from <= to` on strings. */
  predicate InOrder(from: string, until: string) {
    !StringLess(until, from)
  }

  predicate HonourableRange(from: Option<string>, until: Option<string>) {
    from.Some? && until.Some? && IsIsoDate(from.value) && IsIsoDate(until.value) && InOrder(from.value, until.value)
  }

  function RangeOf(raw: Option<string>, from: Option<string>, until: Option<string>): TimeRange {
    var preset := if raw.Some? then PresetNamed(raw.value) else None;
    if preset.None? then DEFAULT_RANGE
    else if preset.value == Custom then
      if HonourableRange(from, until) then TimeRange(Custom, from, until) else DEFAULT_RANGE
    else TimeRange(preset.value, None, None)
  }

  function GroupByOf(raw: Option<string>): Dimension {
    var d := if raw.Some? then DimensionNamed(raw.value) else None;
    if d.Some? then d.value else DEFAULT_GROUP_BY
  }

  function Parsed(params: seq<Param>): FilterState {
    FilterState(RangeOf(Get(params, "range"), Get(params, "from"), Get(params, "to")),
                GroupByOf(Get(params, "groupBy")),
      map d: Dimension :: Multi(Get(params, DimensionName(d))))
  }

  method ParseFilters(sp: SearchParams) returns (state: FilterState)
    ensures state == Parsed(sp.list)
  {
    hide RangeOf, GroupByOf, Multi;
    state := DEFAULT_STATE;
    state := state.(range := RangeOf(Get(sp.list, "range"), Get(sp.list, "from"), Get(sp.list, "to")));
    state := state.(groupBy := GroupByOf(Get(sp.list, "groupBy")));
    for i := 0 to |DIMENSIONS|
      invariant state.range == Parsed(sp.list).range && state.groupBy == Parsed(sp.list).groupBy
      invariant forall k :: 0 <= k < i ==>
        state.filters[DIMENSIONS[k]] == Multi(Get(sp.list, DimensionName(DIMENSIONS[k])))
    {
      var dim := DIMENSIONS[i];
      var values := ParseMulti(Get(sp.list, DimensionName(dim)));
      state := state.(filters := state.filters[dim := values]);
    }
    forall d: Dimension ensures state.filters[d] == Multi(Get(sp.list, DimensionName(d))) {
      var k := IndexOf(d);
      assert DIMENSIONS[k] == d;
    }
    assert state.filters == Parsed(sp.list).filters;
  }

  function IndexOf(d: Dimension): (k: nat)
    ensures k < |DIMENSIONS| && DIMENSIONS[k] == d
  {
    match d
    case Feature => 0
    case Model => 1
    case Layer => 2
    case Provider => 3
    case Account => 4
    case Agent => 5
  }

  // ---- Serialising ----

  function DeleteAll(params: seq<Param>, names: seq<string>): seq<Param>
    decreases |names|
  {
    if names == [] then params else DeleteAll(Delete(params, names[0]), names[1..])
  }

  function WriteRange(params: seq<Param>, range: TimeRange): seq<Param> {
    if range.preset == Days30 then params
    else
      var named := Set(params, "range", PresetName(range.preset));
      if range.preset == Custom && range.from.Some? && range.from.value != "" && range.until.Some?
        && range.until.value != "" then
        Set(Set(named, "from", range.from.value), "to", range.until.value)
      else named
  }

  function WriteGroupBy(params: seq<Param>, groupBy: Dimension): seq<Param> {
    if groupBy == DEFAULT_GROUP_BY then params else Set(params, "groupBy", DimensionName(groupBy))
  }

  function WriteDimensions(params: seq<Param>, filters: DimensionFilters, dims: seq<Dimension>): seq<Param> {
    if dims == [] then params
    else
      var before, d := WriteDimensions(params, filters, dims[..|dims| - 1]), dims[|dims| - 1];
      if filters[d] == [] then before else Set(before, DimensionName(d), Join(filters[d]))
  }

  function Serialised(state: FilterState, base: seq<Param>): seq<Param> {
    WriteDimensions(WriteGroupBy(WriteRange(DeleteAll(base, MANAGED_KEYS), state.range), state.groupBy), state.filters,
                    DIMENSIONS)
  }

  method FiltersToSearchParams(state: FilterState, base: SearchParams) returns (params: SearchParams)
    ensures fresh(params) && params.list == Serialised(state, base.list) && base.list == old(base.list)
  {
    hide Set, Delete, Join;
    params := new SearchParams(base.list);
    for i := 0 to |MANAGED_KEYS|
      invariant fresh(params) && base.list == old(base.list)
      invariant DeleteAll(params.list, MANAGED_KEYS[i..]) == DeleteAll(base.list, MANAGED_KEYS)
    {
      assert MANAGED_KEYS[i..][1..] == MANAGED_KEYS[i + 1..];
      params.Remove(MANAGED_KEYS[i]);
    }
    if state.range.preset != Days30 {
      params.Put("range", PresetName(state.range.preset));
      if state.range.preset == Custom && state.range.from.Some? && state.range.from.value != ""
         && state.range.until.Some? && state.range.until.value != "" {
        params.Put("from", state.range.from.value);
        params.Put("to", state.range.until.value);
      }
    }
    if state.groupBy != DEFAULT_GROUP_BY {
      params.Put("groupBy", DimensionName(state.groupBy));
    }
    ghost var before := params.list;
    for i := 0 to |DIMENSIONS|
      invariant fresh(params) && base.list == old(base.list)
      invariant params.list == WriteDimensions(before, state.filters, DIMENSIONS[..i])
    {
      var dim := DIMENSIONS[i];
      assert DIMENSIONS[..i + 1][..i] == DIMENSIONS[..i];
      var values := state.filters[dim];
      if |values| > 0 {
        params.Put(DimensionName(dim), Join(values));
      }
    }
    assert DIMENSIONS[..|DIMENSIONS|] == DIMENSIONS;
  }

  // ---- The setters ----

  function WithRangePreset(state: FilterState, preset: Preset): FilterState
    requires preset != Custom
  {
    state.(range := TimeRange(preset, None, None))
  }

  function WithCustomRange(state: FilterState, from: string, until: string): FilterState {
    if !IsIsoDate(from) || !IsIsoDate(until) || StringLess(until, from) then state
    else state.(range := TimeRange(Custom, Some(from), Some(until)))
  }

  function WithGroupBy(state: FilterState, groupBy: Dimension): FilterState {
    state.(groupBy := groupBy)
  }

  function OtherThan(value: string): string -> bool {
    (v: string) => v != value
  }

  function ToggleDimensionValue(state: FilterState, dim: Dimension, value: string): FilterState {
    var current := state.filters[dim];
    state.(filters := state.filters[dim := if value in current then Filter(current, OtherThan(value))
      else current + [value]])
  }

  function ClearDimension(state: FilterState, dim: Dimension): FilterState {
    state.(filters := state.filters[dim := []])
  }

  function ClearAllFilters(state: FilterState): FilterState {
    state.(filters := NO_FILTERS)
  }
}
