/** Revenue per provider (attributionRevenueSql in web/lib/clickhouse.ts): a query over row sequences,
    as it is, aggregate then distinct then join, and as it was, a direct join. Rows arrive filtered by
    tenant, window and source; amounts are `None` where the column is NULL. */
module Revenue {
  import opened Money
  import opened Results
  import opened Sums

  const REFUND_VALUE_TYPE := "refund"

  datatype Event = Event(userHash: string, valueType: string, amountMicro: Option<int>)
  datatype ServedSpan = ServedSpan(userHash: string, provider: string)

  datatype UserRevenue = UserRevenue(userHash: string, revenueMicro: int, revenueEvents: int)
  datatype UserProvider = UserProvider(userHash: string, provider: string)
  datatype Joined<A, B> = Joined(left: A, right: B)
  datatype ProviderRevenue = ProviderRevenue(provider: string, revenue: int, users: nat)

  // ---- The relational operators ----

  /** `SELECT DISTINCT`, keeping first appearances. */
  function Dedupe<T(==, !new)>(s: seq<T>): (r: seq<T>)
    ensures Distinct(r)
    ensures forall x :: x in r <==> x in s
  {
    if s == [] then []
    else
      var before, last := Dedupe(s[..|s| - 1]), s[|s| - 1];
      assert s == s[..|s| - 1] + [last];
      if last in before then before else before + [last]
  }

  /** `INNER JOIN`: every matching pair. */
  function Join<A(!new), B(!new)>(left: seq<A>, right: seq<B>, on: A -> B -> bool): seq<Joined<A, B>> {
    if left == [] then [] else Map(Filter(right, on(left[0])), With(left[0])) + Join(left[1..], right, on)
  }

  function With<A, B>(a: A): B -> Joined<A, B> {
    (b: B) => Joined(a, b)
  }

  // ---- The inputs ----

  const HasUser: Event -> bool := (e: Event) => e.userHash != ""
  const SpanHasUser: ServedSpan -> bool := (s: ServedSpan) => s.userHash != ""
  const UserOf: Event -> string := (e: Event) => e.userHash
  const PairOf: ServedSpan -> UserProvider := (s: ServedSpan) => UserProvider(s.userHash, s.provider)
  const IsRefund: Event -> bool := (e: Event) => e.valueType == REFUND_VALUE_TYPE
  /** `ifNull(b.ValueAmountMicro, 0)` */
  const AmountOrZero: Event -> int := (e: Event) => if e.amountMicro.Some? then e.amountMicro.value else 0
  const AbsAmount: Event -> int := (e: Event) => Abs(AmountOrZero(e))
  const One: Event -> int := (e: Event) => 1

  function OfUser(user: string): Event -> bool {
    (e: Event) => e.userHash == user
  }

  function IsPositive(positiveTypes: seq<string>): Event -> bool {
    (e: Event) => e.valueType in positiveTypes
  }

  function IsMoney(positiveTypes: seq<string>): Event -> bool {
    (e: Event) => e.valueType in positiveTypes || e.valueType == REFUND_VALUE_TYPE
  }

  /** A user's net revenue: positives minus the size of every refund. */
  function Net(events: seq<Event>, positiveTypes: seq<string>): string -> int {
    (user: string) =>
      SumWhere(events, Both(OfUser(user), IsPositive(positiveTypes)), AmountOrZero)
        - SumWhere(events, Both(OfUser(user), IsRefund), AbsAmount)
  }

  /** `countIf` over the user's money-typed events. */
  function MoneyEvents(events: seq<Event>, positiveTypes: seq<string>): string -> int {
    (user: string) => SumWhere(events, Both(OfUser(user), IsMoney(positiveTypes)), One)
  }

  // ---- The query as it is ----

  /** The left side: aggregated per user before anything is joined. */
  function PerUser(events: seq<Event>, positiveTypes: seq<string>): seq<UserRevenue> {
    Map(Dedupe(Map(Filter(events, HasUser), UserOf)), RowFor(events, positiveTypes))
  }

  function RowFor(events: seq<Event>, positiveTypes: seq<string>): string -> UserRevenue {
    (user: string) => UserRevenue(user, Net(events, positiveTypes)(user), MoneyEvents(events, positiveTypes)(user))
  }

  /** The right side: distinct (user, provider) pairs. */
  function ServedPairs(spans: seq<ServedSpan>): seq<UserProvider> {
    Dedupe(Map(Filter(spans, SpanHasUser), PairOf))
  }

  const SameUser: UserRevenue -> UserProvider -> bool := (r: UserRevenue) => (u: UserProvider) =>
    u.userHash == r.userHash

  type Attributed = Joined<UserRevenue, UserProvider>

  const ProviderOf: Attributed -> string := (j: Attributed) => j.right.provider
  const JoinedRevenue: Attributed -> int := (j: Attributed) => j.left.revenueMicro
  const JoinedUser: Attributed -> string := (j: Attributed) => j.left.userHash
  const HasMoney: Attributed -> bool := (j: Attributed) => j.left.revenueEvents > 0

  function ForProvider(provider: string): Attributed -> bool {
    (j: Attributed) => j.right.provider == provider
  }

  function AttributedRows(events: seq<Event>, spans: seq<ServedSpan>, positiveTypes: seq<string>): seq<Attributed> {
    Join(PerUser(events, positiveTypes), ServedPairs(spans), SameUser)
  }

  /** One group of the outer `GROUP BY provider`. */
  function GroupOf(rows: seq<Attributed>): string -> ProviderRevenue {
    (provider: string) =>
      ProviderRevenue(provider, SumWhere(rows, ForProvider(provider), JoinedRevenue),
        |Dedupe(Map(Filter(rows, Both(ForProvider(provider), HasMoney)), JoinedUser))|)
  }

  function AttributionRevenue(events: seq<Event>, spans: seq<ServedSpan>,
                              positiveTypes: seq<string>): seq<ProviderRevenue> {
    var rows := AttributedRows(events, spans, positiveTypes);
    Map(Dedupe(Map(rows, ProviderOf)), GroupOf(rows))
  }

  // ---- The query as it was ----

  const SameUserDirect: Event -> ServedSpan -> bool := (e: Event) => (s: ServedSpan) => s.userHash == e.userHash

  type DirectRow = Joined<Event, ServedSpan>

  function DirectProvider(provider: string): DirectRow -> bool {
    (j: DirectRow) => j.right.provider == provider
  }

  /** What one event adds. */
  function Signed(positiveTypes: seq<string>): Event -> int {
    (e: Event) => (if IsPositive(positiveTypes)(e) then AmountOrZero(e) else 0)
      - (if IsRefund(e) then AbsAmount(e) else 0)
  }

  function DirectAmount(positiveTypes: seq<string>): DirectRow -> int {
    (j: DirectRow) => Signed(positiveTypes)(j.left)
  }

  /** The sum straight across events joined with spans. */
  function DirectRevenue(events: seq<Event>, spans: seq<ServedSpan>, positiveTypes: seq<string>,
                         provider: string): int {
    SumWhere(Join(Filter(events, HasUser), Filter(spans, SpanHasUser), SameUserDirect), DirectProvider(provider),
             DirectAmount(positiveTypes))
  }

  // ---- What the query means ----

  function Served(spans: seq<ServedSpan>, provider: string): string -> bool {
    (user: string) => user != "" && ServedSpan(user, provider) in spans
  }

  /** How many spans a user has with a provider. */
  function SpanCount(spans: seq<ServedSpan>, provider: string): string -> nat {
    (user: string) => multiset(spans)[ServedSpan(user, provider)]
  }

  /** A duplicate-free list of the users a provider served. */
  ghost predicate ServedUsers(users: seq<string>, spans: seq<ServedSpan>, provider: string) {
    Distinct(users) && forall u :: u in users <==> Served(spans, provider)(u)
  }
}
