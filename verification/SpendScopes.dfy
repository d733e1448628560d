/** The scope vocabulary (web/lib/spendScopes.ts): a slice of spend, its key, and the parse back. */
module SpendScopes {
  import opened Results

  datatype ScopeKind = TenantKind | FeatureKind | ModelKind | LayerKind

  const SCOPE_KINDS: seq<ScopeKind> := [TenantKind, FeatureKind, ModelKind, LayerKind]

  datatype ForecastScope = ForecastScope(kind: ScopeKind, value: string)

  const TENANT_SCOPE := ForecastScope(TenantKind, "")

  function KindName(kind: ScopeKind): string {
    match kind
    case TenantKind => "tenant"
    case FeatureKind => "feature"
    case ModelKind => "model"
    case LayerKind => "layer"
  }

  function KindNamed(name: string): Option<ScopeKind> {
    if name == "tenant" then Some(TenantKind)
    else if name == "feature" then Some(FeatureKind)
    else if name == "model" then Some(ModelKind)
    else if name == "layer" then Some(LayerKind)
    else None
  }

  /** `value` is empty exactly when the kind is tenant. */
  predicate IsScope(scope: ForecastScope) {
    scope.kind == TenantKind <==> scope.value == ""
  }

  function ScopeKey(scope: ForecastScope): string {
    if scope.kind == TenantKind then "tenant" else KindName(scope.kind) + ":" + scope.value
  }

  function ScopeLabel(scope: ForecastScope): string {
    if scope.kind == TenantKind then "Whole tenant" else KindName(scope.kind) + ": " + scope.value
  }

  /** `key.indexOf(":")`, with `None` for -1. */
  function FirstColon(key: string): (r: Option<nat>)
    ensures r.Some? ==> r.value < |key| && key[r.value] == ':' && forall j :: 0 <= j < r.value ==> key[j] != ':'
    ensures r.None? ==> forall j :: 0 <= j < |key| ==> key[j] != ':'
  {
    if key == "" then None
    else if key[0] == ':' then Some(0)
    else
      var later := FirstColon(key[1..]);
      if later.Some? then Some(later.value + 1) else None
  }

  /** `None` when the key names nothing this deployment can forecast. Only the first colon splits. */
  function ParseScopeKey(key: string): Option<ForecastScope> {
    if key == "" then None
    else if key == "tenant" then Some(TENANT_SCOPE)
    else
      var colon := FirstColon(key);
      if colon.None? || colon.value == 0 then None
      else
        var kind, value := KindNamed(key[..colon.value]), key[colon.value + 1..];
        if value == "" || kind.None? || kind.value == TenantKind then None
        else Some(ForecastScope(kind.value, value))
  }

  /** The scope a budget row governs; `None` when it governs none. */
  function ScopeOfBudget(scopeKind: string, scopeValue: string): (r: Option<ForecastScope>)
    ensures r.Some? ==> IsScope(r.value)
  {
    var kind := KindNamed(scopeKind);
    if kind.None? then None
    else if kind.value == TenantKind then Some(TENANT_SCOPE)
    else if scopeValue == "" then None
    else Some(ForecastScope(kind.value, scopeValue))
  }

  lemma {:induction false} KindNameIsParsed(kind: ScopeKind)
    ensures KindNamed(KindName(kind)) == Some(kind)
    ensures KindName(kind) != "" && forall j :: 0 <= j < |KindName(kind)| ==> KindName(kind)[j] != ':'
  {
  }

  /** A scope's key parses back to the scope, colons in the value and all. */
  lemma {:induction false} ParseOfKey(scope: ForecastScope)
    requires IsScope(scope)
    ensures ParseScopeKey(ScopeKey(scope)) == Some(scope)
  {
    if scope.kind != TenantKind {
      var name, key := KindName(scope.kind), ScopeKey(scope);
      KindNameIsParsed(scope.kind);
      assert key[|name|] == ':';
      assert forall j :: 0 <= j < |name| ==> key[j] == name[j];
      var colon := FirstColon(key);
      assert colon == Some(|name|);
      assert key[..|name|] == name && key[|name| + 1..] == scope.value;
      assert forall j :: 0 <= j < |"tenant"| ==> "tenant"[j] != ':';
      assert key != "tenant";
    }
  }

  /** And whatever parses is a scope whose key is the string that was parsed. */
  lemma {:induction false} KeyOfParse(key: string)
    requires ParseScopeKey(key).Some?
    ensures IsScope(ParseScopeKey(key).value) && ScopeKey(ParseScopeKey(key).value) == key
  {
    if key != "tenant" {
      var colon := FirstColon(key).value;
      assert key == key[..colon] + [key[colon]] + key[colon + 1..];
    }
  }

  lemma {:induction false} ScopeKeyInjective(a: ForecastScope, b: ForecastScope)
    requires IsScope(a) && IsScope(b) && ScopeKey(a) == ScopeKey(b)
    ensures a == b
  {
    ParseOfKey(a);
    ParseOfKey(b);
  }
}
