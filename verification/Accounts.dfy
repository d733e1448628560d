/** The per-customer cost table: the reads that build it (queryAccountCosts and queryExcludedInfraCost
    in web/lib/clickhouse.ts) and the allocation of infrastructure onto it (web/lib/accounts.ts).

    A read is modelled by what SQL says about its answer, not by an evaluation order: one row per group
    present, in any order, carrying that group's sum. Both reads answer over the same rollup rows. */
module Accounts {
  import opened Money
  import opened Results
  import opened Sums
  import opened Sorting
  import opened Layers
  import opened Allocation

  /** One row of `daily_account_rollup` that passed the tenant, window and filter clauses. */
  datatype RollupRow = RollupRow(account: string, operation: string, costMicroUsd: int)

  const Cost: RollupRow -> int := (r: RollupRow) => r.costMicroUsd

  const UNATTRIBUTED_ACCOUNT: string := ""

  datatype AccountTotal = AccountTotal(account: string, spans: nat, users: nat)
  datatype AccountLayerCost = AccountLayerCost(account: string, layer: Layer, cost: int)
  datatype LayerCost = LayerCost(layer: Layer, cost: int)

  datatype DirectSpendByLayer = DirectSpendByLayer(llm: int, tools: int, vector: int, embeddings: int)

  datatype AccountCostRow = AccountCostRow(
    accountIdHash: string, unattributed: bool, byLayer: DirectSpendByLayer,
    directCostMicroUsd: int, distinctUsers: nat, spanCount: nat)

  datatype AccountCosts = AccountCosts(
    windowDays: nat, accounts: seq<AccountCostRow>, unattributed: AccountCostRow, totalDirectMicroUsd: int)

  datatype ExcludedInfraCost = ExcludedInfraCost(
    windowDays: nat, computeMicroUsd: int, egressMicroUsd: int, totalMicroUsd: int)

  // ---- What the reads answer ----

  const IsDirect: RollupRow -> bool := (r: RollupRow) => DirectOnly(r.operation)
  const IsExcluded: RollupRow -> bool := (r: RollupRow) => !DirectOnly(r.operation)
  const AccountKey: RollupRow -> string := (r: RollupRow) => r.account
  const LayerKey: RollupRow -> Layer := (r: RollupRow) => LayerOf(r.operation)

  /** Direct spend of one account over all its layers. */
  function AccountDirect(rows: seq<RollupRow>, account: string): int {
    SumWhere(rows, InGroup(IsDirect, AccountKey, account), Cost)
  }

  /** Direct spend of one account in one layer. */
  function DirectSpend(rows: seq<RollupRow>, account: string, layer: Layer): int {
    SumWhere(rows, InGroup(InGroup(IsDirect, AccountKey, account), LayerKey, layer), Cost)
  }

  function ExcludedSpend(rows: seq<RollupRow>, layer: Layer): int {
    SumWhere(rows, InGroup(IsExcluded, LayerKey, layer), Cost)
  }

  function DirectTotal(rows: seq<RollupRow>): int {
    SumWhere(rows, IsDirect, Cost)
  }

  function ExcludedTotal(rows: seq<RollupRow>): int {
    SumWhere(rows, IsExcluded, Cost)
  }

  ghost predicate DistinctAccounts(totals: seq<AccountTotal>) {
    forall i, j :: 0 <= i < j < |totals| ==> totals[i].account != totals[j].account
  }

  /** `GROUP BY account` under the direct filter. */
  ghost predicate AnswersTotals(rows: seq<RollupRow>, totals: seq<AccountTotal>) {
    && DistinctAccounts(totals)
    && (forall r :: r in rows && IsDirect(r) ==> exists t :: t in totals && t.account == r.account)
  }

  /** `GROUP BY account, layer` under the direct filter. */
  ghost predicate AnswersByLayer(rows: seq<RollupRow>, out: seq<AccountLayerCost>) {
    && (forall i, j :: 0 <= i < j < |out| ==> out[i].account != out[j].account || out[i].layer != out[j].layer)
    && (forall o :: o in out ==> o.cost == DirectSpend(rows, o.account, o.layer))
    && (forall r :: r in rows && IsDirect(r) ==>
         exists o :: o in out && o.account == r.account && o.layer == LayerOf(r.operation))
  }

  /** `GROUP BY layer` under the negated filter. */
  ghost predicate AnswersExcluded(rows: seq<RollupRow>, out: seq<LayerCost>) {
    && (forall i, j :: 0 <= i < j < |out| ==> out[i].layer != out[j].layer)
    && (forall o :: o in out ==> o.cost == ExcludedSpend(rows, o.layer))
    && (forall r :: r in rows && IsExcluded(r) ==> exists o :: o in out && o.layer == LayerOf(r.operation))
  }

  // ---- Assembling the table ----

  /** What `m[r.layer] = micro(r.cost)` leaves behind: the last matching row, or zero. */
  function LayerFigure(out: seq<AccountLayerCost>, account: string, layer: Layer): int {
    if out == [] then 0
    else
      var last := out[|out| - 1];
      if last.account == account && last.layer == layer then last.cost
      else LayerFigure(out[..|out| - 1], account, layer)
  }

  function LayersFor(out: seq<AccountLayerCost>, account: string): DirectSpendByLayer {
    DirectSpendByLayer(LayerFigure(out, account, Llm), LayerFigure(out, account, Tools),
                       LayerFigure(out, account, Vector), LayerFigure(out, account, Embeddings))
  }

  function Spend(byLayer: DirectSpendByLayer, layer: Layer): int {
    match layer
    case Llm => byLayer.llm
    case Tools => byLayer.tools
    case Vector => byLayer.vector
    case Embeddings => byLayer.embeddings
    case _ => 0
  }

  function TotalDirect(byLayer: DirectSpendByLayer): int {
    SumBy(DIRECT_LAYERS, (l: Layer) => Spend(byLayer, l))
  }

  function RowFor(t: AccountTotal, out: seq<AccountLayerCost>): AccountCostRow {
    var byLayer := LayersFor(out, t.account);
    AccountCostRow(t.account, t.account == UNATTRIBUTED_ACCOUNT, byLayer, TotalDirect(byLayer), t.users, t.spans)
  }

  const EmptyBucket: AccountCostRow :=
    AccountCostRow(UNATTRIBUTED_ACCOUNT, true, DirectSpendByLayer(0, 0, 0, 0), 0, 0, 0)

  function RealRows(totals: seq<AccountTotal>, out: seq<AccountLayerCost>): seq<AccountCostRow> {
    if totals == [] then []
    else
      var t := totals[|totals| - 1];
      RealRows(totals[..|totals| - 1], out) + if t.account == UNATTRIBUTED_ACCOUNT then [] else [RowFor(t, out)]
  }

  function Bucket(totals: seq<AccountTotal>, out: seq<AccountLayerCost>): AccountCostRow {
    if totals == [] then EmptyBucket
    else
      var t := totals[|totals| - 1];
      if t.account == UNATTRIBUTED_ACCOUNT then RowFor(t, out) else Bucket(totals[..|totals| - 1], out)
  }

  predicate DearerFirst(a: AccountCostRow, b: AccountCostRow) {
    a.directCostMicroUsd >= b.directCostMicroUsd
  }

  const RowDirectCost: AccountCostRow -> int := (r: AccountCostRow) => r.directCostMicroUsd

  function Assemble(windowDays: nat, totals: seq<AccountTotal>, out: seq<AccountLayerCost>): AccountCosts {
    var accounts := Sort(RealRows(totals, out), DearerFirst);
    var bucket := Bucket(totals, out);
    AccountCosts(windowDays, accounts, bucket, SumBy(accounts, RowDirectCost) + bucket.directCostMicroUsd)
  }

  /** `compute` and `egress` are picked out of the excluded rows by name; the last one of a name wins. */
  function ExcludedFigure(out: seq<LayerCost>, layer: Layer): int {
    if out == [] then 0
    else if out[|out| - 1].layer == layer then out[|out| - 1].cost
    else ExcludedFigure(out[..|out| - 1], layer)
  }

  function AssembleExcluded(windowDays: nat, out: seq<LayerCost>): ExcludedInfraCost {
    var compute, egress := ExcludedFigure(out, Compute), ExcludedFigure(out, Egress);
    ExcludedInfraCost(windowDays, compute, egress, compute + egress)
  }

  method QueryAccountCosts(windowDays: nat, totals: seq<AccountTotal>, byLayerRows: seq<AccountLayerCost>)
      returns (costs: AccountCosts)
    ensures costs == Assemble(windowDays, totals, byLayerRows)
  {
    var layers: map<string, DirectSpendByLayer> := map[];
    for i := 0 to |byLayerRows|
      invariant forall a :: a in layers ==> layers[a] == LayersFor(byLayerRows[..i], a)
      invariant forall a :: a !in layers ==> LayersFor(byLayerRows[..i], a) == DirectSpendByLayer(0, 0, 0, 0)
    {
      var r := byLayerRows[i];
      assert byLayerRows[..i + 1][..i] == byLayerRows[..i];
      var m := if r.account in layers then layers[r.account] else DirectSpendByLayer(0, 0, 0, 0);
      m := match r.layer
        case Llm => m.(llm := r.cost)
        case Tools => m.(tools := r.cost)
        case Vector => m.(vector := r.cost)
        case Embeddings => m.(embeddings := r.cost)
        case _ => m;
      layers := layers[r.account := m];
    }
    assert byLayerRows[..|byLayerRows|] == byLayerRows;

    var accounts: seq<AccountCostRow> := [];
    var unattributed := EmptyBucket;
    for i := 0 to |totals|
      invariant accounts == RealRows(totals[..i], byLayerRows)
      invariant unattributed == Bucket(totals[..i], byLayerRows)
    {
      var t := totals[i];
      assert totals[..i + 1][..i] == totals[..i];
      var byLayer := if t.account in layers then layers[t.account] else DirectSpendByLayer(0, 0, 0, 0);
      var row := AccountCostRow(t.account, t.account == UNATTRIBUTED_ACCOUNT, byLayer, TotalDirect(byLayer), t.users,
                                t.spans);
      if row.unattributed {
        unattributed := row;
      } else {
        accounts := accounts + [row];
      }
    }
    assert totals[..|totals|] == totals;
    var ranked := ArrayOf(accounts);
    SortInPlace(ranked, DearerFirst);
    accounts := ranked[..];
    costs := AccountCosts(windowDays, accounts, unattributed,
                          SumBy(accounts, RowDirectCost) + unattributed.directCostMicroUsd);
  }

  method QueryExcludedInfraCost(windowDays: nat, out: seq<LayerCost>) returns (excluded: ExcludedInfraCost)
    ensures excluded == AssembleExcluded(windowDays, out)
  {
    var computeMicroUsd, egressMicroUsd := 0, 0;
    for i := 0 to |out|
      invariant computeMicroUsd == ExcludedFigure(out[..i], Compute)
      invariant egressMicroUsd == ExcludedFigure(out[..i], Egress)
    {
      assert out[..i + 1][..i] == out[..i];
      if out[i].layer == Compute {
        computeMicroUsd := out[i].cost;
      } else if out[i].layer == Egress {
        egressMicroUsd := out[i].cost;
      }
    }
    assert out[..|out|] == out;
    excluded := ExcludedInfraCost(windowDays, computeMicroUsd, egressMicroUsd, computeMicroUsd + egressMicroUsd);
  }

  // ---- The table accounts for every dollar ----

  lemma {:induction false} LayerFigureIsDirectSpend(rows: seq<RollupRow>, out: seq<AccountLayerCost>, account: string,
                                                    layer: Layer)
    requires AnswersByLayer(rows, out)
    ensures LayerFigure(out, account, layer) == DirectSpend(rows, account, layer)
  {
    var matches := exists o :: o in out && o.account == account && o.layer == layer;
    if matches {
      var o :| o in out && o.account == account && o.layer == layer;
      LayerFigureFound(out, o);
    } else {
      LayerFigureMissing(out, account, layer);
      WhereNone(rows, InGroup(InGroup(IsDirect, AccountKey, account), LayerKey, layer), Cost);
    }
  }

  lemma {:induction false} LayerFigureFound(out: seq<AccountLayerCost>, o: AccountLayerCost)
    requires forall i, j :: 0 <= i < j < |out| ==> out[i].account != out[j].account || out[i].layer != out[j].layer
    requires o in out
    ensures LayerFigure(out, o.account, o.layer) == o.cost
  {
    var n := |out| - 1;
    if out[n].account != o.account || out[n].layer != o.layer {
      LayerFigureFound(out[..n], o);
    }
  }

  lemma {:induction false} LayerFigureMissing(out: seq<AccountLayerCost>, account: string, layer: Layer)
    requires forall o :: o in out ==> o.account != account || o.layer != layer
    ensures LayerFigure(out, account, layer) == 0
  {
    if out != [] {
      LayerFigureMissing(out[..|out| - 1], account, layer);
    }
  }

  /** A row's direct cost is the account's whole direct spend: no direct operation falls outside the
      four direct layers. */
  lemma {:induction false} RowIsAccountDirect(rows: seq<RollupRow>, t: AccountTotal, out: seq<AccountLayerCost>)
    requires AnswersByLayer(rows, out)
    ensures RowFor(t, out).directCostMicroUsd == AccountDirect(rows, t.account)
  {
    var row, account := RowFor(t, out), t.account;
    var group := (l: Layer) => Spend(row.byLayer, l);
    forall l | l in DIRECT_LAYERS ensures group(l) == DirectSpend(rows, account, l) {
      LayerFigureIsDirectSpend(rows, out, account, l);
    }
    forall r | r in rows && IsDirect(r) ensures LayerKey(r) in DIRECT_LAYERS {
      DirectFilterMatchesMapping(r.operation);
    }
    GroupTotal(rows, InGroup(IsDirect, AccountKey, account), DIRECT_LAYERS, LayerKey, Cost, group);
  }

  lemma {:induction false} BucketWhenMissing(totals: seq<AccountTotal>, out: seq<AccountLayerCost>)
    requires forall t :: t in totals ==> t.account != UNATTRIBUTED_ACCOUNT
    ensures Bucket(totals, out) == EmptyBucket
  {
    if totals != [] {
      BucketWhenMissing(totals[..|totals| - 1], out);
    }
  }

  function DirectCostOf(out: seq<AccountLayerCost>): AccountTotal -> int {
    (t: AccountTotal) => RowFor(t, out).directCostMicroUsd
  }

  /** Splitting the rows into real accounts and the bucket loses none of them. */
  lemma {:induction false} ParticipantsSum(totals: seq<AccountTotal>, out: seq<AccountLayerCost>)
    requires DistinctAccounts(totals)
    ensures SumBy(RealRows(totals, out), RowDirectCost) + Bucket(totals, out).directCostMicroUsd
         == SumBy(totals, DirectCostOf(out))
  {
    var f := DirectCostOf(out);
    if totals != [] {
      var n := |totals| - 1;
      var t := totals[n];
      ParticipantsSum(totals[..n], out);
      SumSnoc(totals, f);
      if t.account == UNATTRIBUTED_ACCOUNT {
        BucketWhenMissing(totals[..n], out);
        assert RealRows(totals, out) == RealRows(totals[..n], out);
      } else {
        SumConcat(RealRows(totals[..n], out), [RowFor(t, out)], RowDirectCost);
        assert SumBy([RowFor(t, out)], RowDirectCost) == f(t);
      }
    }
  }

  /** The figure that must reconcile with /cost: all direct spend, every account and the bucket. */
  lemma {:induction false} TableCoversDirectSpend(rows: seq<RollupRow>, windowDays: nat, totals: seq<AccountTotal>,
                                                  out: seq<AccountLayerCost>)
    requires AnswersTotals(rows, totals) && AnswersByLayer(rows, out)
    ensures Assemble(windowDays, totals, out).totalDirectMicroUsd == DirectTotal(rows)
  {
    var known := RealRows(totals, out);
    SortPermutes(known, DearerFirst);
    SumPermutation(Sort(known, DearerFirst), known, RowDirectCost);
    ParticipantsSum(totals, out);
    var names := Map(totals, (t: AccountTotal) => t.account);
    var group := (a: string) => AccountDirect(rows, a);
    forall i | 0 <= i < |totals| ensures DirectCostOf(out)(totals[i]) == group(names[i]) {
      RowIsAccountDirect(rows, totals[i], out);
    }
    SumPointwise(totals, names, DirectCostOf(out), group);
    forall r | r in rows && IsDirect(r) ensures AccountKey(r) in names {
      var t :| t in totals && t.account == r.account;
      var i :| 0 <= i < |totals| && totals[i] == t;
      assert names[i] == r.account;
    }
    GroupTotal(rows, IsDirect, names, AccountKey, Cost, group);
  }

  lemma {:induction false} ExcludedFigureIs(rows: seq<RollupRow>, out: seq<LayerCost>, layer: Layer)
    requires forall i, j :: 0 <= i < j < |out| ==> out[i].layer != out[j].layer
    requires forall o :: o in out ==> o.cost == ExcludedSpend(rows, o.layer)
    ensures ExcludedFigure(out, layer) == if exists o :: o in out && o.layer == layer then ExcludedSpend(rows, layer)
      else 0
  {
    if out != [] {
      var n := |out| - 1;
      if out[n].layer != layer {
        ExcludedFigureIs(rows, out[..n], layer);
        assert (exists o :: o in out[..n] && o.layer == layer) <==> (exists o :: o in out && o.layer == layer);
      } else {
        assert out[n] in out;
      }
    }
  }

  lemma {:induction false} ExcludedSpendIs(rows: seq<RollupRow>, out: seq<LayerCost>, layer: Layer)
    requires AnswersExcluded(rows, out)
    ensures ExcludedFigure(out, layer) == ExcludedSpend(rows, layer)
  {
    ExcludedFigureIs(rows, out, layer);
    if !(exists o :: o in out && o.layer == layer) {
      WhereNone(rows, InGroup(IsExcluded, LayerKey, layer), Cost);
    }
  }

  /** Compute plus egress is everything the direct filter left out. */
  lemma {:induction false} ExcludedCoversTheRest(rows: seq<RollupRow>, windowDays: nat, out: seq<LayerCost>)
    requires AnswersExcluded(rows, out)
    ensures AssembleExcluded(windowDays, out).totalMicroUsd == ExcludedTotal(rows)
  {
    ExcludedSpendIs(rows, out, Compute);
    ExcludedSpendIs(rows, out, Egress);
    forall r | r in rows && IsExcluded(r) ensures LayerKey(r) in [Compute, Egress] {
      DirectFilterMatchesMapping(r.operation);
    }
    var group := (l: Layer) => ExcludedSpend(rows, l);
    GroupTotal(rows, IsExcluded, [Compute, Egress], LayerKey, Cost, group);
    assert [Compute, Egress][1..] == [Egress];
    assert SumBy([Compute, Egress], group) == group(Compute) + SumBy([Egress], group);
  }

  // ---- `allocateAccountCosts` ----

  datatype AllocatedAccountRow = AllocatedAccountRow(row: AccountCostRow, allocatedMicroUsd: int, totalMicroUsd: int)

  datatype AllocatedAccountCosts = AllocatedAccountCosts(
    windowDays: nat, rule: AllocationRule, effectiveRule: AllocationRule,
    accounts: seq<AllocatedAccountRow>, unattributed: AllocatedAccountRow,
    sharedMicroUsd: int, directTotalMicroUsd: int, allocatedTotalMicroUsd: int, tenantTotalMicroUsd: int)

  const AllocatedTotal: AllocatedAccountRow -> int := (r: AllocatedAccountRow) => r.totalMicroUsd

  predicate CostlierFirst(a: AllocatedAccountRow, b: AllocatedAccountRow) {
    a.totalMicroUsd >= b.totalMicroUsd
  }

  function DirectSpends(participants: seq<AccountCostRow>): (r: seq<AccountDirectSpend>)
    ensures |r| == |participants|
    ensures forall i :: 0 <= i < |r| ==>
      r[i] == AccountDirectSpend(participants[i].accountIdHash, participants[i].directCostMicroUsd)
  {
    seq(|participants|, i requires 0 <= i < |participants| =>
      AccountDirectSpend(participants[i].accountIdHash, participants[i].directCostMicroUsd))
  }

  function WithShares(participants: seq<AccountCostRow>, rows: seq<AccountAllocation>): (r: seq<AllocatedAccountRow>)
    requires |rows| == |participants|
    ensures |r| == |participants|
    ensures forall i :: 0 <= i < |r| ==>
      r[i] == AllocatedAccountRow(participants[i], rows[i].allocatedMicroUsd, rows[i].totalMicroUsd)
  {
    seq(|participants|, i requires 0 <= i < |participants| =>
      AllocatedAccountRow(participants[i], rows[i].allocatedMicroUsd, rows[i].totalMicroUsd))
  }

  /** `None` is the source's `null`: the excluded total could not be read. */
  function AllocationOver(costs: AccountCosts, excluded: Option<ExcludedInfraCost>, rule: AllocationRule):
      Result<Option<AllocatedAccountCosts>, AllocationError>
  {
    if excluded.None? then Ok(None)
    else
      var participants := costs.accounts + [costs.unattributed];
      var shared := excluded.value.totalMicroUsd;
      AllocationReconcilesWhenOk(DirectSpends(participants), shared, rule);
      var result := Allocate(DirectSpends(participants), shared, rule);
      if result.Err? then Err(result.error)
      else
        var a := result.value;
        var rows := WithShares(participants, a.accounts);
        var n := |rows| - 1;
        Ok(Some(AllocatedAccountCosts(costs.windowDays, a.rule, a.effectiveRule, Sort(rows[..n], CostlierFirst),
          rows[n], shared, a.directTotalMicroUsd, a.allocatedTotalMicroUsd, a.tenantTotalMicroUsd)))
  }

  lemma {:induction false} AllocationReconcilesWhenOk(accounts: seq<AccountDirectSpend>, shared: int,
                                                      rule: AllocationRule)
    ensures Allocate(accounts, shared, rule).Ok? ==> |Allocate(accounts, shared, rule).value.accounts| == |accounts|
  {
    AllocateAcceptsExactly(accounts, shared, rule);
    if AcceptableInput(accounts, shared) {
      AllocationReconciles(accounts, shared, rule);
    }
  }

  function AllocatedRowsTotal(a: AllocatedAccountCosts): int {
    SumBy(a.accounts, AllocatedTotal) + a.unattributed.totalMicroUsd
  }

  const RowOfAllocated: AllocatedAccountRow -> AccountCostRow := (r: AllocatedAccountRow) => r.row

  ghost predicate CostliestFirst(rows: seq<AllocatedAccountRow>) {
    forall i, j :: 0 <= i < j < |rows| ==> rows[i].totalMicroUsd >= rows[j].totalMicroUsd
  }

  /** The rendered table agrees with itself and with what it was made from. */
  ghost predicate RowsReconcile(a: AllocatedAccountCosts, costs: AccountCosts, excluded: ExcludedInfraCost) {
    && AllocatedRowsTotal(a) == a.tenantTotalMicroUsd
    && a.tenantTotalMicroUsd == SumBy(costs.accounts, RowDirectCost) + costs.unattributed.directCostMicroUsd
         + excluded.totalMicroUsd
    && a.unattributed.row == costs.unattributed
    && multiset(Map(a.accounts, RowOfAllocated)) == multiset(costs.accounts)
    && CostliestFirst(a.accounts)
    && forall r :: r in a.accounts ==> r.totalMicroUsd == r.row.directCostMicroUsd + r.allocatedMicroUsd
  }

  lemma {:induction false} RankingKeeps(rows: seq<AllocatedAccountRow>)
    ensures var ranked := Sort(rows, CostlierFirst);
      && |ranked| == |rows| && SumBy(ranked, AllocatedTotal) == SumBy(rows, AllocatedTotal)
      && SortedBy(ranked, CostlierFirst) && (forall r :: r in ranked <==> r in rows)
      && multiset(ranked) == multiset(rows)
      && multiset(Map(ranked, RowOfAllocated)) == multiset(Map(rows, RowOfAllocated))
  {
    SortPermutes(rows, CostlierFirst);
    SortSorts(rows, CostlierFirst);
    SortMembers(rows, CostlierFirst);
    SumPermutation(Sort(rows, CostlierFirst), rows, AllocatedTotal);
    MapPermutes(Sort(rows, CostlierFirst), rows, RowOfAllocated);
  }

  /** The acceptance rule of the page, for any costs and any excluded total: whenever an allocation is
      produced, the rendered rows add up to the claimed tenant total, which is direct plus shared; the
      accounts shown are the accounts given, re-ranked by total and nothing else. */
  lemma {:induction false} RenderedRowsReconcile(costs: AccountCosts, excluded: ExcludedInfraCost, rule: AllocationRule)
    ensures var a := AllocationOver(costs, Some(excluded), rule);
      a.Ok? ==> a.value.Some? && RowsReconcile(a.value.value, costs, excluded)
  {
    hide Allocate, Sort, SumBy, AcceptableInput;
    if AllocationOver(costs, Some(excluded), rule).Ok? {
      var participants := costs.accounts + [costs.unattributed];
      var spends := DirectSpends(participants);
      AllocateAcceptsExactly(spends, excluded.totalMicroUsd, rule);
      AllocationReconciles(spends, excluded.totalMicroUsd, rule);
      var result := Allocate(spends, excluded.totalMicroUsd, rule).value;
      RowsKeepParticipants(costs, result.accounts);
      RankingKeeps(WithShares(participants, result.accounts)[..|costs.accounts|]);
      DirectOfParticipants(costs);
      hide WithShares, DirectSpends;
    }
  }

  lemma {:induction false} DirectOfParticipants(costs: AccountCosts)
    ensures SumBy(DirectSpends(costs.accounts + [costs.unattributed]), Direct)
         == SumBy(costs.accounts, RowDirectCost) + costs.unattributed.directCostMicroUsd
  {
    var participants := costs.accounts + [costs.unattributed];
    SumPointwise(DirectSpends(participants), participants, Direct, RowDirectCost);
    SumConcat(costs.accounts, [costs.unattributed], RowDirectCost);
    assert SumBy([costs.unattributed], RowDirectCost) == costs.unattributed.directCostMicroUsd;
  }

  lemma {:induction false} RowsKeepParticipants(costs: AccountCosts, accounts: seq<AccountAllocation>)
    requires |accounts| == |costs.accounts| + 1
    requires forall i :: 0 <= i < |accounts| ==>
      var participants := costs.accounts + [costs.unattributed];
      accounts[i].totalMicroUsd == participants[i].directCostMicroUsd + accounts[i].allocatedMicroUsd
    ensures var rows, n := WithShares(costs.accounts + [costs.unattributed], accounts), |costs.accounts|;
      && Map(rows[..n], RowOfAllocated) == costs.accounts && rows[n].row == costs.unattributed
      && SumBy(rows[..n], AllocatedTotal) + rows[n].totalMicroUsd == SumBy(accounts, RowTotal)
      && forall r :: r in rows ==> r.totalMicroUsd == r.row.directCostMicroUsd + r.allocatedMicroUsd
  {
    var rows := WithShares(costs.accounts + [costs.unattributed], accounts);
    SumPointwise(rows, accounts, AllocatedTotal, RowTotal);
    SumSnoc(rows, AllocatedTotal);
    assert Map(rows[..|costs.accounts|], RowOfAllocated) == costs.accounts;
  }

  const AnyCost: RollupRow -> bool := (r: RollupRow) => true

  /** The whole bill, whatever the spans and the rule: what the reads return over one snapshot, put
      through the table and the allocation, renders rows that sum to the cost of every row in it. */
  lemma {:induction false} BillIsConserved(rows: seq<RollupRow>, windowDays: nat, totals: seq<AccountTotal>,
                                           byLayer: seq<AccountLayerCost>, excludedRows: seq<LayerCost>,
                                           rule: AllocationRule)
    requires AnswersTotals(rows, totals) && AnswersByLayer(rows, byLayer) && AnswersExcluded(rows, excludedRows)
    ensures var a := AllocationOver(Assemble(windowDays, totals, byLayer),
                                          Some(AssembleExcluded(windowDays, excludedRows)), rule);
      a.Ok? ==> a.value.Some? && AllocatedRowsTotal(a.value.value) == SumBy(rows, Cost)
  {
    var costs, excluded := Assemble(windowDays, totals, byLayer), AssembleExcluded(windowDays, excludedRows);
    TableCoversDirectSpend(rows, windowDays, totals, byLayer);
    ExcludedCoversTheRest(rows, windowDays, excludedRows);
    WhereSplit(rows, AnyCost, IsDirect, IsExcluded, Cost);
    WhereAll(rows, AnyCost, Cost);
    if AllocationOver(costs, Some(excluded), rule).Ok? {
      RenderedRowsReconcile(costs, excluded, rule);
    }
  }

  const IdOf: AccountCostRow -> string := (r: AccountCostRow) => r.accountIdHash

  /** The reads never repeat an account and the bucket's id is no account's, so the engine's duplicate
      check cannot fire on the assembled table. */
  lemma {:induction false} ParticipantsDistinct(windowDays: nat, totals: seq<AccountTotal>,
                                                byLayer: seq<AccountLayerCost>)
    requires DistinctAccounts(totals)
    ensures var costs := Assemble(windowDays, totals, byLayer);
      Distinct(Map(costs.accounts + [costs.unattributed], IdOf))
  {
    var costs, known := Assemble(windowDays, totals, byLayer), RealRows(totals, byLayer);
    SortPermutes(known, DearerFirst);
    SortMembers(known, DearerFirst);
    MapPermutes(known, costs.accounts, IdOf);
    RealRowsDistinct(totals, byLayer);
    DistinctPermutation(Map(known, IdOf), Map(costs.accounts, IdOf));
    BucketIsUnattributed(totals, byLayer);
    hide Sort, RealRows, Bucket;
    LastIsApart(costs.accounts, costs.unattributed);
  }

  lemma {:induction false} LastIsApart(rows: seq<AccountCostRow>, last: AccountCostRow)
    requires Distinct(Map(rows, IdOf)) && forall r :: r in rows ==> IdOf(r) != IdOf(last)
    ensures Distinct(Map(rows + [last], IdOf))
  {
    var ids := Map(rows + [last], IdOf);
    forall i, j | 0 <= i < j < |ids| ensures ids[i] != ids[j] {
      assert rows[i] in rows;
      if j < |rows| {
        assert ids[i] == Map(rows, IdOf)[i] && ids[j] == Map(rows, IdOf)[j];
      }
    }
  }

  /** And it is produced exactly when every participant's direct spend and the shared pot are safe
      integers. */
  lemma {:induction false} ProducedExactly(costs: AccountCosts, excluded: ExcludedInfraCost, rule: AllocationRule)
    requires Distinct(Map(costs.accounts + [costs.unattributed], IdOf))
    ensures AllocationOver(costs, Some(excluded), rule).Ok? <==>
      && IsSafeInteger(excluded.totalMicroUsd)
      && forall r :: r in costs.accounts + [costs.unattributed] ==> IsSafeInteger(r.directCostMicroUsd)
  {
    var participants := costs.accounts + [costs.unattributed];
    var spends := DirectSpends(participants);
    AllocateAcceptsExactly(spends, excluded.totalMicroUsd, rule);
    forall i, j | 0 <= i < j < |spends| ensures spends[i].accountId != spends[j].accountId {
      assert Map(participants, IdOf)[i] != Map(participants, IdOf)[j];
    }
    hide Allocate, WithShares, Sort, IsSafeInteger;
    assert forall r :: r in participants ==> exists i :: 0 <= i < |participants| && participants[i] == r;
  }

  lemma {:induction false} AllocationProducedExactly(windowDays: nat, totals: seq<AccountTotal>,
                                                     byLayer: seq<AccountLayerCost>, excluded: ExcludedInfraCost,
                                                     rule: AllocationRule)
    requires DistinctAccounts(totals)
    ensures var costs := Assemble(windowDays, totals, byLayer);
      AllocationOver(costs, Some(excluded), rule).Ok? <==>
        && IsSafeInteger(excluded.totalMicroUsd)
        && forall r :: r in costs.accounts + [costs.unattributed] ==> IsSafeInteger(r.directCostMicroUsd)
  {
    hide Assemble, AllocationOver, IsSafeInteger, Distinct;
    ParticipantsDistinct(windowDays, totals, byLayer);
    ProducedExactly(Assemble(windowDays, totals, byLayer), excluded, rule);
  }

  lemma {:induction false} BucketIsUnattributed(totals: seq<AccountTotal>, out: seq<AccountLayerCost>)
    ensures Bucket(totals, out).accountIdHash == UNATTRIBUTED_ACCOUNT && Bucket(totals, out).unattributed
  {
    if totals != [] {
      BucketIsUnattributed(totals[..|totals| - 1], out);
    }
  }

  lemma {:induction false} RealRowsDistinct(totals: seq<AccountTotal>, out: seq<AccountLayerCost>)
    requires DistinctAccounts(totals)
    ensures Distinct(Map(RealRows(totals, out), IdOf))
    ensures forall r :: r in RealRows(totals, out) ==>
      !r.unattributed && r.accountIdHash != UNATTRIBUTED_ACCOUNT && exists t ::
        t in totals && t.account == r.accountIdHash
  {
    if totals != [] {
      var n := |totals| - 1;
      RealRowsDistinct(totals[..n], out);
      var before, after := RealRows(totals[..n], out), RealRows(totals, out);
      forall r | r in after
        ensures !r.unattributed && r.accountIdHash != UNATTRIBUTED_ACCOUNT && exists t ::
          t in totals && t.account == r.accountIdHash
      {
        if r in before {
          var t :| t in totals[..n] && t.account == r.accountIdHash;
          assert t in totals;
        } else {
          assert totals[n] in totals;
        }
      }
      if totals[n].account != UNATTRIBUTED_ACCOUNT {
        forall i | 0 <= i < |before| ensures after[i].accountIdHash != totals[n].account {
          assert before[i] in before;
          var t :| t in totals[..n] && t.account == before[i].accountIdHash;
        }
      }
    }
  }

  // ---- The table, column by column ----

  /** A row of the table: each layer is that account's own direct spend in it, and the counts are those the
      read reported for the account. */
  ghost predicate RowHolds(r: AccountCostRow, t: AccountTotal, rows: seq<RollupRow>) {
    && r.accountIdHash == t.account && (r.unattributed <==> t.account == "")
    && r.byLayer.llm == DirectSpend(rows, t.account, Llm) && r.byLayer.tools == DirectSpend(rows, t.account, Tools)
    && r.byLayer.vector == DirectSpend(rows, t.account, Vector)
    && r.byLayer.embeddings == DirectSpend(rows, t.account, Embeddings)
    && r.directCostMicroUsd == AccountDirect(rows, t.account)
    && r.distinctUsers == t.users && r.spanCount == t.spans
  }

  lemma {:induction false} RowForHolds(rows: seq<RollupRow>, t: AccountTotal, out: seq<AccountLayerCost>)
    requires AnswersByLayer(rows, out)
    ensures RowHolds(RowFor(t, out), t, rows)
  {
    hide AnswersByLayer, LayerFigure, DirectSpend, AccountDirect, TotalDirect;
    RowIsAccountDirect(rows, t, out);
    LayerFigureIsDirectSpend(rows, out, t.account, Llm);
    LayerFigureIsDirectSpend(rows, out, t.account, Tools);
    LayerFigureIsDirectSpend(rows, out, t.account, Vector);
    LayerFigureIsDirectSpend(rows, out, t.account, Embeddings);
  }

  lemma {:induction false} RealRowsAre(totals: seq<AccountTotal>, out: seq<AccountLayerCost>)
    ensures forall t :: t in totals && t.account != UNATTRIBUTED_ACCOUNT ==> RowFor(t, out) in RealRows(totals, out)
    ensures forall r :: r in RealRows(totals, out) ==>
      exists t :: t in totals && t.account != UNATTRIBUTED_ACCOUNT && r == RowFor(t, out)
  {
    hide RowFor;
    if totals != [] {
      var before, last := totals[..|totals| - 1], totals[|totals| - 1];
      RealRowsAre(before, out);
      assert forall t :: t in totals <==> t in before || t == last;
    }
  }

  lemma {:induction false} BucketIs(totals: seq<AccountTotal>, out: seq<AccountLayerCost>)
    ensures (exists t :: t in totals && t.account == UNATTRIBUTED_ACCOUNT) ==>
      exists t :: t in totals && t.account == UNATTRIBUTED_ACCOUNT && Bucket(totals, out) == RowFor(t, out)
    ensures (forall t :: t in totals ==> t.account != UNATTRIBUTED_ACCOUNT) ==> Bucket(totals, out) == EmptyBucket
  {
    hide RowFor;
    if totals != [] {
      var before, last := totals[..|totals| - 1], totals[|totals| - 1];
      BucketIs(before, out);
      assert forall t :: t in totals <==> t in before || t == last;
    }
  }

  /** A row for every account the read reported, dearest first, each column that account's own. */
  ghost predicate AccountRowsHold(accounts: seq<AccountCostRow>, rows: seq<RollupRow>, totals: seq<AccountTotal>) {
    && (forall t :: t in totals && t.account != "" ==> exists r :: r in accounts && RowHolds(r, t, rows))
    && (forall r :: r in accounts ==> exists t :: t in totals && t.account != "" && RowHolds(r, t, rows))
    && (forall i, j :: 0 <= i < j < |accounts| ==> accounts[i].directCostMicroUsd >= accounts[j].directCostMicroUsd)
  }

  ghost predicate BucketHolds(bucket: AccountCostRow, rows: seq<RollupRow>, totals: seq<AccountTotal>) {
    && ((exists t :: t in totals && t.account == "") ==>
         exists t :: t in totals && t.account == "" && RowHolds(bucket, t, rows))
    && ((forall t :: t in totals ==> t.account != "") ==>
         bucket == AccountCostRow("", true, DirectSpendByLayer(0, 0, 0, 0), 0, 0, 0))
  }

  /** The whole table: the account rows, the unattributed spend beside them, and the headline, their sum. */
  lemma {:induction false} TableIs(rows: seq<RollupRow>, windowDays: nat, totals: seq<AccountTotal>,
                                   out: seq<AccountLayerCost>)
    requires AnswersByLayer(rows, out)
    ensures var costs := Assemble(windowDays, totals, out);
      && AccountRowsHold(costs.accounts, rows, totals) && BucketHolds(costs.unattributed, rows, totals)
      && costs.totalDirectMicroUsd == SumBy(costs.accounts, RowDirectCost) + costs.unattributed.directCostMicroUsd
      && costs.windowDays == windowDays
  {
    var known := RealRows(totals, out);
    RealRowsAre(totals, out);
    BucketIs(totals, out);
    SortMembers(known, DearerFirst);
    SortSorts(known, DearerFirst);
    forall t ensures RowHolds(RowFor(t, out), t, rows) {
      RowForHolds(rows, t, out);
    }
    hide RowFor, RealRows, Bucket, Sort, RowHolds, SumBy, AnswersByLayer;
    var accounts := Sort(known, DearerFirst);
    assert forall i, j :: 0 <= i < j < |accounts| ==> DearerFirst(accounts[i], accounts[j]);
  }

  lemma {:induction false} ExcludedFiguresAre(rows: seq<RollupRow>, windowDays: nat, out: seq<LayerCost>)
    requires AnswersExcluded(rows, out)
    ensures var e := AssembleExcluded(windowDays, out);
      && e.computeMicroUsd == ExcludedSpend(rows, Compute) && e.egressMicroUsd == ExcludedSpend(rows, Egress)
      && e.totalMicroUsd == e.computeMicroUsd + e.egressMicroUsd && e.windowDays == windowDays
  {
    hide ExcludedSpend, ExcludedFigure, AnswersExcluded;
    ExcludedSpendIs(rows, out, Compute);
    ExcludedSpendIs(rows, out, Egress);
  }

  // ---- The allocated rows ----

  /** The weights the pot is split by: direct spend where it is positive, or one each when no account has
      any, or under the even rule. */
  ghost predicate SplitBy(weights: seq<nat>, participants: seq<AccountCostRow>, rule: AllocationRule) {
    && |weights| == |participants|
    && var prorata := rule == ProRataDirect && exists r :: r in participants && r.directCostMicroUsd > 0;
       forall i :: 0 <= i < |weights| ==>
         weights[i] == if !prorata then 1 else if participants[i].directCostMicroUsd > 0 then
           participants[i].directCostMicroUsd else 0
  }

  ghost predicate HoldsShare(r: AllocatedAccountRow, participants: seq<AccountCostRow>, shares: seq<int>) {
    exists i :: 0 <= i < |participants| && i < |shares| && r.row == participants[i] && r.allocatedMicroUsd == shares[i]
  }

  lemma {:induction false} WeightsAre(participants: seq<AccountCostRow>, rule: AllocationRule)
    requires participants != []
    ensures var spends := DirectSpends(participants);
      SplitBy(WeightsUnder(spends, EffectiveRule(spends, rule)), participants, rule)
  {
    var spends := DirectSpends(participants);
    var weights := ProRataWeights(spends);
    WeightTotalZero(weights);
    hide WeightTotal;
    if r :| r in participants && r.directCostMicroUsd > 0 {
      var i :| 0 <= i < |participants| && participants[i] == r;
      assert weights[i] > 0;
    } else {
      assert forall i :: 0 <= i < |participants| ==> participants[i] in participants && weights[i] == 0;
    }
  }

  lemma {:induction false} AllocatedAre(accounts: seq<AccountDirectSpend>, shared: int, rule: AllocationRule)
    requires accounts != [] && Allocate(accounts, shared, rule).Ok?
    ensures var a := Allocate(accounts, shared, rule).value;
      var shares := Split(shared, WeightsUnder(accounts, EffectiveRule(accounts, rule)));
      && a.rule == rule && a.effectiveRule == EffectiveRule(accounts, rule) && |a.accounts| == |accounts|
      && forall i :: 0 <= i < |accounts| ==> a.accounts[i].allocatedMicroUsd == shares[i]
  {
    hide Split, WeightTotal, SumBy, FirstProblem;
  }

  /** Each rendered row holds its own account's share of the excluded pot, split by direct spend. */
  lemma {:induction false} SharesAreOwn(costs: AccountCosts, excluded: ExcludedInfraCost, rule: AllocationRule)
      returns (weights: seq<nat>)
    ensures var participants := costs.accounts + [costs.unattributed];
      SplitBy(weights, participants, rule)
    ensures var participants, a := costs.accounts + [costs.unattributed], AllocationOver(costs, Some(excluded), rule);
      var shares := Split(excluded.totalMicroUsd, weights);
      a.Ok? ==>
        && a.value.Some? && a.value.value.sharedMicroUsd == excluded.totalMicroUsd && a.value.value.rule == rule
        && a.value.value.unattributed.row == costs.unattributed
        && HoldsShare(a.value.value.unattributed, participants, shares)
        && forall r :: r in a.value.value.accounts ==> HoldsShare(r, participants, shares)
  {
    var participants := costs.accounts + [costs.unattributed];
    var spends := DirectSpends(participants);
    weights := WeightsUnder(spends, EffectiveRule(spends, rule));
    WeightsAre(participants, rule);
    hide SplitBy;
    if AllocationOver(costs, Some(excluded), rule).Ok? {
      AllocatedAre(spends, excluded.totalMicroUsd, rule);
      AllocateAcceptsExactly(spends, excluded.totalMicroUsd, rule);
      var shares := Split(excluded.totalMicroUsd, weights);
      var rows := WithShares(participants, Allocate(spends, excluded.totalMicroUsd, rule).value.accounts);
      hide Allocate, Split, WeightsUnder, EffectiveRule;
      RowsHoldShares(rows, participants, shares);
      SortMembers(rows[..|rows| - 1], CostlierFirst);
      hide Sort, HoldsShare;
    }
  }

  lemma {:induction false} RowsHoldShares(rows: seq<AllocatedAccountRow>, participants: seq<AccountCostRow>,
                                          shares: seq<int>)
    requires |rows| == |participants| == |shares|
    requires forall i :: 0 <= i < |rows| ==>
      rows[i].row == participants[i] && rows[i].allocatedMicroUsd == shares[i]
    ensures forall r :: r in rows ==> HoldsShare(r, participants, shares)
  {
  }

  method AllocateAccountCosts(costs: AccountCosts, excluded: Option<ExcludedInfraCost>, rule: AllocationRule)
      returns (r: Result<Option<AllocatedAccountCosts>, AllocationError>)
    ensures r == AllocationOver(costs, excluded, rule)
  {
    if excluded.None? {
      return Ok(None);
    }
    var participants := costs.accounts + [costs.unattributed];
    var result := AllocateShared(DirectSpends(participants), excluded.value.totalMicroUsd, rule);
    if result.Err? {
      return Err(result.error);
    }
    AllocationReconcilesWhenOk(DirectSpends(participants), excluded.value.totalMicroUsd, rule);
    var a := result.value;
    var allocatedRows := WithShares(participants, a.accounts);
    var unattributed := allocatedRows[|allocatedRows| - 1];
    var accounts := allocatedRows[..|allocatedRows| - 1];
    var ranked := ArrayOf(accounts);
    SortInPlace(ranked, CostlierFirst);
    accounts := ranked[..];
    r := Ok(Some(AllocatedAccountCosts(costs.windowDays, a.rule, a.effectiveRule, accounts, unattributed,
      excluded.value.totalMicroUsd, a.directTotalMicroUsd, a.allocatedTotalMicroUsd, a.tenantTotalMicroUsd)));
  }
}
