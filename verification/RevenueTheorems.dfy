/** What the revenue query computes, why spans cannot inflate it, and by exactly how much the direct
    join it replaced did. */
module RevenueTheorems {
  import opened Money
  import opened Results
  import opened Sums
  import opened Revenue

  // ---- Sums over a join ----

  /** What one left row contributes to a conditional sum over the join. */
  function Contribution<A(!new), B(!new)>(
      right: seq<B>, on: A -> B -> bool, p: Joined<A, B> -> bool, f: Joined<A, B> -> int): A -> int {
    (a: A) => SumWhere(Map(Filter(right, on(a)), With(a)), p, f)
  }

  lemma {:induction false} JoinSum<A(!new), B(!new)>(
      left: seq<A>, right: seq<B>, on: A -> B -> bool, p: Joined<A, B> -> bool, f: Joined<A, B> -> int)
    ensures SumWhere(Join(left, right, on), p, f) == SumBy(left, Contribution(right, on, p, f))
  {
    if left != [] {
      JoinSum(left[1..], right, on, p, f);
      WhereConcat(Map(Filter(right, on(left[0])), With(left[0])), Join(left[1..], right, on), p, f);
    }
  }

  lemma {:induction false} InJoin<A(!new), B(!new)>(left: seq<A>, right: seq<B>, on: A -> B -> bool, j: Joined<A, B>)
    ensures j in Join(left, right, on) <==> j.left in left && j.right in right && on(j.left)(j.right)
  {
    if left != [] {
      InJoin(left[1..], right, on, j);
      InMap(Filter(right, on(left[0])), With(left[0]), j);
      assert left == [left[0]] + left[1..];
    }
  }

  // ---- The inputs of the join ----

  predicate Active(events: seq<Event>, user: string) {
    user != "" && exists i :: 0 <= i < |events| && events[i].userHash == user
  }

  function Users(events: seq<Event>): seq<string> {
    Dedupe(Map(Filter(events, HasUser), UserOf))
  }

  lemma {:induction false} UsersAre(events: seq<Event>)
    ensures Distinct(Users(events)) && forall u :: u in Users(events) <==> Active(events, u)
  {
    forall u ensures u in Users(events) <==> Active(events, u) {
      InMap(Filter(events, HasUser), UserOf, u);
      if Active(events, u) {
        var i :| 0 <= i < |events| && events[i].userHash == u;
        assert events[i] in Filter(events, HasUser);
      }
      if u in Users(events) {
        var e :| e in Filter(events, HasUser) && UserOf(e) == u;
        var i :| 0 <= i < |events| && events[i] == e;
      }
    }
  }

  lemma {:induction false} PairsAre(spans: seq<ServedSpan>)
    ensures Distinct(ServedPairs(spans))
    ensures forall u, p :: UserProvider(u, p) in ServedPairs(spans) <==> Served(spans, p)(u)
  {
    forall u, p ensures UserProvider(u, p) in ServedPairs(spans) <==> Served(spans, p)(u) {
      InMap(Filter(spans, SpanHasUser), PairOf, UserProvider(u, p));
      if Served(spans, p)(u) {
        assert PairOf(ServedSpan(u, p)) == UserProvider(u, p);
      }
    }
  }

  lemma {:induction false} IdleNetsZero(events: seq<Event>, positiveTypes: seq<string>, user: string)
    requires user != "" && !Active(events, user)
    ensures Net(events, positiveTypes)(user) == 0 && MoneyEvents(events, positiveTypes)(user) == 0
  {
    forall e | e in events ensures e.userHash != user {
      var i :| 0 <= i < |events| && events[i] == e;
    }
    WhereNone(events, Both(OfUser(user), IsPositive(positiveTypes)), AmountOrZero);
    WhereNone(events, Both(OfUser(user), IsRefund), AbsAmount);
    WhereNone(events, Both(OfUser(user), IsMoney(positiveTypes)), One);
  }

  // ---- The query as it is ----

  /** A user's revenue lands in a provider's sum once, if that provider served the user at all. */
  lemma {:induction false} RowContributes(spans: seq<ServedSpan>, provider: string, r: UserRevenue)
    requires r.userHash != ""
    ensures Contribution(ServedPairs(spans), SameUser, ForProvider(provider), JoinedRevenue)(r)
         == if Served(spans, provider)(r.userHash) then r.revenueMicro else 0
  {
    PairsAre(spans);
    hide ServedPairs;
    var pairs, pair := ServedPairs(spans), UserProvider(r.userHash, provider);
    WhereOfMap(Filter(pairs, SameUser(r)), With(r), ForProvider(provider), JoinedRevenue, IsPair(r, provider),
               RevenueOfRow(r));
    WhereOfFilter(pairs, SameUser(r), IsPair(r, provider), RevenueOfRow(r));
    if pair in pairs {
      var k :| 0 <= k < |pairs| && pairs[k] == pair;
      WhereOnly(pairs, Both(SameUser(r), IsPair(r, provider)), RevenueOfRow(r), k);
    } else {
      WhereNone(pairs, Both(SameUser(r), IsPair(r, provider)), RevenueOfRow(r));
    }
  }

  function IsPair(r: UserRevenue, provider: string): UserProvider -> bool {
    (u: UserProvider) => u.provider == provider
  }

  function RevenueOfRow(r: UserRevenue): UserProvider -> int {
    (u: UserProvider) => r.revenueMicro
  }

  lemma {:induction false} RowsSumToServed(events: seq<Event>, spans: seq<ServedSpan>, positiveTypes: seq<string>,
                                           provider: string)
    ensures SumWhere(AttributedRows(events, spans, positiveTypes), ForProvider(provider), JoinedRevenue)
         == SumWhere(Users(events), Served(spans, provider), Net(events, positiveTypes))
  {
    var rows, users := PerUser(events, positiveTypes), Users(events);
    var part := Contribution(ServedPairs(spans), SameUser, ForProvider(provider), JoinedRevenue);
    UsersAre(events);
    JoinSum(rows, ServedPairs(spans), SameUser, ForProvider(provider), JoinedRevenue);
    WhereIsGuarded(users, Served(spans, provider), Net(events, positiveTypes));
    hide ServedPairs, Net, MoneyEvents, Contribution, Served;
    forall i | 0 <= i < |rows|
      ensures part(rows[i]) == Guarded(Served(spans, provider), Net(events, positiveTypes))(users[i])
    {
      assert users[i] in users;
      RowContributes(spans, provider, rows[i]);
    }
    SumPointwise(rows, users, part, Guarded(Served(spans, provider), Net(events, positiveTypes)));
  }

  function ActiveIn(events: seq<Event>): string -> bool {
    (u: string) => Active(events, u)
  }

  /** A sum over the active users that were served is a sum over the served users. */
  lemma {:induction false} ServedSum(events: seq<Event>, spans: seq<ServedSpan>, provider: string, users: seq<string>,
                                     f: string -> int)
    requires ServedUsers(users, spans, provider)
    requires forall u :: u in users && !Active(events, u) ==> f(u) == 0
    ensures SumWhere(Users(events), Served(spans, provider), f) == SumBy(users, f)
  {
    UsersAre(events);
    hide Active, Served, Users;
    var a, b := Filter(Users(events), Served(spans, provider)), Filter(users, ActiveIn(events));
    WhereIsFilter(Users(events), Served(spans, provider), f);
    WhereAll(users, ActiveIn(events), f);
    WhereIsFilter(users, ActiveIn(events), f);
    FilterKeepsDistinct(Users(events), Served(spans, provider));
    FilterKeepsDistinct(users, ActiveIn(events));
    DistinctSameMembers(a, b);
    SumPermutation(a, b, f);
  }

  function HasMoneyEvents(events: seq<Event>, positiveTypes: seq<string>): string -> bool {
    (u: string) => MoneyEvents(events, positiveTypes)(u) > 0
  }

  /** Which providers are reported: those that served a user with an event. */
  ghost predicate Reported(events: seq<Event>, spans: seq<ServedSpan>, provider: string) {
    exists u :: Active(events, u) && Served(spans, provider)(u)
  }

  lemma {:induction false} InAttributed(events: seq<Event>, spans: seq<ServedSpan>, positiveTypes: seq<string>,
                                        j: Attributed)
    ensures j in AttributedRows(events, spans, positiveTypes) <==>
      && Active(events, j.left.userHash) && j.left == RowFor(events, positiveTypes)(j.left.userHash)
      && j.right.userHash == j.left.userHash && Served(spans, j.right.provider)(j.right.userHash)
  {
    UsersAre(events);
    PairsAre(spans);
    InJoin(PerUser(events, positiveTypes), ServedPairs(spans), SameUser, j);
    InMap(Users(events), RowFor(events, positiveTypes), j.left);
    assert j.right == UserProvider(j.right.userHash, j.right.provider);
  }

  lemma {:induction false} ProvidersReported(events: seq<Event>, spans: seq<ServedSpan>, positiveTypes: seq<string>,
                                             provider: string)
    ensures provider in Map(AttributedRows(events, spans, positiveTypes), ProviderOf)
      <==> Reported(events, spans, provider)
  {
    var rows := AttributedRows(events, spans, positiveTypes);
    hide AttributedRows, Active, Served, RowFor;
    InMap(rows, ProviderOf, provider);
    if provider in Map(rows, ProviderOf) {
      var j :| j in rows && ProviderOf(j) == provider;
      InAttributed(events, spans, positiveTypes, j);
    }
    if Reported(events, spans, provider) {
      var u :| Active(events, u) && Served(spans, provider)(u);
      var j := Joined(RowFor(events, positiveTypes)(u), UserProvider(u, provider));
      RowUser(events, positiveTypes, u);
      InAttributed(events, spans, positiveTypes, j);
      assert ProviderOf(j) == provider;
    }
  }

  lemma {:induction false} RowUser(events: seq<Event>, positiveTypes: seq<string>, user: string)
    ensures RowFor(events, positiveTypes)(user).userHash == user
    ensures RowFor(events, positiveTypes)(user).revenueEvents > 0 <==> HasMoneyEvents(events, positiveTypes)(user)
  {
  }

  lemma {:induction false} UsersCounted(events: seq<Event>, spans: seq<ServedSpan>, positiveTypes: seq<string>,
                                        provider: string, users: seq<string>)
    requires ServedUsers(users, spans, provider)
    ensures |Dedupe(Map(Filter(AttributedRows(events, spans, positiveTypes), Both(ForProvider(provider), HasMoney)),
                        JoinedUser))|
         == |Filter(users, HasMoneyEvents(events, positiveTypes))|
  {
    var rows := AttributedRows(events, spans, positiveTypes);
    var counted := Filter(rows, Both(ForProvider(provider), HasMoney));
    var a, b := Dedupe(Map(counted, JoinedUser)), Filter(users, HasMoneyEvents(events, positiveTypes));
    FilterKeepsDistinct(users, HasMoneyEvents(events, positiveTypes));
    hide AttributedRows, RowFor, Served, Active, MoneyEvents;
    forall u ensures u in a <==> u in b {
      InMap(counted, JoinedUser, u);
      RowUser(events, positiveTypes, u);
      if u in a {
        var j :| j in counted && JoinedUser(j) == u;
        InAttributed(events, spans, positiveTypes, j);
      }
      if u in b {
        MoneyMeansActive(events, spans, positiveTypes, provider, u);
        var j := Joined(RowFor(events, positiveTypes)(u), UserProvider(u, provider));
        InAttributed(events, spans, positiveTypes, j);
        assert j in counted && JoinedUser(j) == u;
      }
    }
    DistinctSameMembers(a, b);
  }

  lemma {:induction false} MoneyMeansActive(events: seq<Event>, spans: seq<ServedSpan>, positiveTypes: seq<string>,
                                            provider: string, user: string)
    requires Served(spans, provider)(user) && HasMoneyEvents(events, positiveTypes)(user)
    ensures Active(events, user)
  {
    if !Active(events, user) {
      IdleNetsZero(events, positiveTypes, user);
    }
  }

  /** The row reported for a provider, from its served users. */
  ghost predicate RowMeans(row: ProviderRevenue, events: seq<Event>, users: seq<string>, positiveTypes: seq<string>) {
    && row.revenue == SumBy(users, Net(events, positiveTypes))
    && row.users == |Filter(users, HasMoneyEvents(events, positiveTypes))|
  }

  /** What one event is worth to its user: its amount if its type is a positive one, and against that the
      size of a refund, whichever sign it was stored with. A missing amount is nothing. */
  function Worth(positiveTypes: seq<string>): Event -> int {
    (e: Event) =>
      if e.amountMicro.None? then 0
      else
        (if e.valueType in positiveTypes then e.amountMicro.value else 0)
        - (if e.valueType != "refund" then 0
           else if e.amountMicro.value >= 0 then e.amountMicro.value else -e.amountMicro.value)
  }

  function Earned(events: seq<Event>, positiveTypes: seq<string>): string -> int {
    (user: string) => SumWhere(events, OfUser(user), Worth(positiveTypes))
  }

  /** The user has an event of a positive type, or a refund. */
  ghost function Paying(events: seq<Event>, positiveTypes: seq<string>): string -> bool {
    (user: string) =>
      exists e :: e in events && e.userHash == user && (e.valueType in positiveTypes || e.valueType == "refund")
  }

  lemma {:induction false} NetIsEarned(events: seq<Event>, positiveTypes: seq<string>, user: string)
    ensures Net(events, positiveTypes)(user) == Earned(events, positiveTypes)(user)
  {
    if events != [] {
      NetIsEarned(events[1..], positiveTypes, user);
    }
  }

  lemma {:induction false} CountsPaying(events: seq<Event>, positiveTypes: seq<string>, user: string)
    ensures MoneyEvents(events, positiveTypes)(user) >= 0
    ensures HasMoneyEvents(events, positiveTypes)(user) <==> Paying(events, positiveTypes)(user)
  {
    if events != [] {
      CountsPaying(events[1..], positiveTypes, user);
      assert forall e :: e in events <==> e == events[0] || e in events[1..];
    }
  }

  /** A refund lowers its user's net revenue by its size, and it does not matter with which sign the amount
      was stored. */
  lemma {:induction false} RefundNetsOff(events: seq<Event>, refund: Event, positiveTypes: seq<string>)
    requires refund.valueType == "refund" && refund.amountMicro.Some? && "refund" !in positiveTypes
    ensures var before, after := Net(events, positiveTypes), Net(events + [refund], positiveTypes);
      && after(refund.userHash) <= before(refund.userHash)
      && (after(refund.userHash) == before(refund.userHash) - refund.amountMicro.value
          || after(refund.userHash) == before(refund.userHash) + refund.amountMicro.value)
      && forall user :: user != refund.userHash ==> after(user) == before(user)
    ensures var flipped := refund.(amountMicro := Some(-refund.amountMicro.value)); forall user ::
      Net(events + [refund], positiveTypes)(user) == Net(events + [flipped], positiveTypes)(user)
  {
    var flipped := refund.(amountMicro := Some(-refund.amountMicro.value));
    forall user
      ensures Net(events + [refund], positiveTypes)(user)
           == Net(events, positiveTypes)(user) + if user == refund.userHash then Worth(positiveTypes)(refund) else 0
      ensures Net(events + [flipped], positiveTypes)(user)
           == Net(events, positiveTypes)(user) + if user == refund.userHash then Worth(positiveTypes)(flipped) else 0
    {
      OneMoreEvent(events, refund, positiveTypes, user);
      OneMoreEvent(events, flipped, positiveTypes, user);
    }
    hide Net;
  }

  lemma {:induction false} OneMoreEvent(events: seq<Event>, e: Event, positiveTypes: seq<string>, user: string)
    ensures Net(events + [e], positiveTypes)(user)
         == Net(events, positiveTypes)(user) + if user == e.userHash then Worth(positiveTypes)(e) else 0
  {
    NetIsEarned(events, positiveTypes, user);
    NetIsEarned(events + [e], positiveTypes, user);
    WhereConcat(events, [e], OfUser(user), Worth(positiveTypes));
    assert [e][1..] == [];
    hide Net;
  }

  /** The row of a provider, from its served users and the events themselves. */
  ghost predicate RowSays(row: ProviderRevenue, events: seq<Event>, users: seq<string>, positiveTypes: seq<string>) {
    && row.revenue == SumBy(users, Earned(events, positiveTypes))
    && row.users == |Filter(users, Paying(events, positiveTypes))|
  }

  lemma {:induction false} MeansSays(row: ProviderRevenue, events: seq<Event>, users: seq<string>,
                                     positiveTypes: seq<string>)
    requires RowMeans(row, events, users, positiveTypes)
    ensures RowSays(row, events, users, positiveTypes)
  {
    forall u ensures Net(events, positiveTypes)(u) == Earned(events, positiveTypes)(u) {
      NetIsEarned(events, positiveTypes, u);
    }
    forall u ensures HasMoneyEvents(events, positiveTypes)(u) == Paying(events, positiveTypes)(u) {
      CountsPaying(events, positiveTypes, u);
    }
    hide Net, MoneyEvents;
    SumCongruent(users, Net(events, positiveTypes), Earned(events, positiveTypes));
    FilterCongruent(users, HasMoneyEvents(events, positiveTypes), Paying(events, positiveTypes));
  }

  /** What the query means. One row per provider that served a user with an event; its revenue is the
      sum, over the distinct users it served, of what each user's events are worth; its user count is how
      many of them have a revenue-typed event. */
  lemma {:induction false} RevenueIs(events: seq<Event>, spans: seq<ServedSpan>, positiveTypes: seq<string>)
    ensures var report := AttributionRevenue(events, spans, positiveTypes);
      && (forall i, j :: 0 <= i < j < |report| ==> report[i].provider != report[j].provider)
      && (forall p :: Reported(events, spans, p) <==> exists row :: row in report && row.provider == p)
      && (forall row, users :: row in report && ServedUsers(users, spans, row.provider) ==>
           RowMeans(row, events, users, positiveTypes) && RowSays(row, events, users, positiveTypes))
  {
    var rows := AttributedRows(events, spans, positiveTypes);
    var providers, report := Dedupe(Map(rows, ProviderOf)), AttributionRevenue(events, spans, positiveTypes);
    hide AttributedRows, Reported, RowMeans, RowSays, GroupOf, ServedUsers;
    forall i | 0 <= i < |report| ensures report[i].provider == providers[i] {
      GroupName(rows, providers[i]);
    }
    forall p ensures Reported(events, spans, p) <==> exists row :: row in report && row.provider == p {
      ProvidersReported(events, spans, positiveTypes, p);
      if p in providers {
        var i :| 0 <= i < |providers| && providers[i] == p;
        assert report[i] in report;
      }
      if exists row :: row in report && row.provider == p {
        var row :| row in report && row.provider == p;
        var i :| 0 <= i < |report| && report[i] == row;
        assert providers[i] in providers;
      }
    }
    forall row, users | row in report && ServedUsers(users, spans, row.provider)
      ensures RowMeans(row, events, users, positiveTypes) && RowSays(row, events, users, positiveTypes)
    {
      var i :| 0 <= i < |report| && report[i] == row;
      RowIs(events, spans, positiveTypes, row.provider, users);
      MeansSays(row, events, users, positiveTypes);
    }
  }

  lemma {:induction false} GroupName(rows: seq<Attributed>, provider: string)
    ensures GroupOf(rows)(provider).provider == provider
  {
  }

  lemma {:induction false} RowIs(events: seq<Event>, spans: seq<ServedSpan>, positiveTypes: seq<string>,
                                 provider: string, users: seq<string>)
    requires ServedUsers(users, spans, provider)
    ensures RowMeans(GroupOf(AttributedRows(events, spans, positiveTypes))(provider), events, users, positiveTypes)
  {
    hide AttributedRows, Net, MoneyEvents, Active;
    RowsSumToServed(events, spans, positiveTypes, provider);
    forall u | u in users && !Active(events, u) ensures Net(events, positiveTypes)(u) == 0 {
      IdleNetsZero(events, positiveTypes, u);
    }
    ServedSum(events, spans, provider, users, Net(events, positiveTypes));
    UsersCounted(events, spans, positiveTypes, provider, users);
  }

  // ---- Spans cannot inflate it ----

  /** The report depends on the spans only through who served whom: repeating a user's spans any
      number of times changes no row, and neither does their order. */
  lemma {:induction false} SpansCannotInflate(events: seq<Event>, spans: seq<ServedSpan>, more: seq<ServedSpan>,
                                              positiveTypes: seq<string>)
    requires forall s :: s in spans <==> s in more
    ensures forall row ::
      row in AttributionRevenue(events, spans, positiveTypes) <==>
      row in AttributionRevenue(events, more, positiveTypes)
  {
    hide AttributionRevenue;
    forall row ensures row in AttributionRevenue(events, spans, positiveTypes)
      <==> row in AttributionRevenue(events, more, positiveTypes) {
      if row in AttributionRevenue(events, spans, positiveTypes) {
        RowSurvives(events, spans, more, positiveTypes, row);
      }
      if row in AttributionRevenue(events, more, positiveTypes) {
        RowSurvives(events, more, spans, positiveTypes, row);
      }
    }
  }

  lemma {:induction false} RowSurvives(events: seq<Event>, spans: seq<ServedSpan>, more: seq<ServedSpan>,
                                       positiveTypes: seq<string>, row: ProviderRevenue)
    requires forall s :: s in spans <==> s in more
    requires row in AttributionRevenue(events, spans, positiveTypes)
    ensures row in AttributionRevenue(events, more, positiveTypes)
  {
    hide AttributionRevenue, RowMeans, Reported, Served, Active;
    var provider, users := row.provider, UsersOfProvider(spans, row.provider);
    RevenueIs(events, spans, positiveTypes);
    RevenueIs(events, more, positiveTypes);
    SameServed(events, spans, more, provider);
    UsersOfProviderAre(spans, provider);
    assert ServedUsers(users, more, provider);
    var same :| same in AttributionRevenue(events, more, positiveTypes) && same.provider == provider;
    assert RowMeans(row, events, users, positiveTypes) && RowMeans(same, events, users, positiveTypes);
    SameRow(row, same, events, users, positiveTypes);
  }

  lemma {:induction false} SameServed(events: seq<Event>, spans: seq<ServedSpan>, more: seq<ServedSpan>,
                                      provider: string)
    requires forall s :: s in spans <==> s in more
    ensures forall u :: Served(spans, provider)(u) == Served(more, provider)(u)
    ensures Reported(events, spans, provider) <==> Reported(events, more, provider)
  {
    forall u ensures Served(spans, provider)(u) == Served(more, provider)(u) {
    }
    hide Served, Active;
    if Reported(events, spans, provider) {
      var u :| Active(events, u) && Served(spans, provider)(u);
      assert Served(more, provider)(u);
    }
    if Reported(events, more, provider) {
      var u :| Active(events, u) && Served(more, provider)(u);
      assert Served(spans, provider)(u);
    }
  }

  lemma {:induction false} SameRow(a: ProviderRevenue, b: ProviderRevenue, events: seq<Event>, users: seq<string>,
                                   positiveTypes: seq<string>)
    requires a.provider == b.provider && RowMeans(a, events, users, positiveTypes)
      && RowMeans(b, events, users, positiveTypes)
    ensures a == b
  {
  }

  const UserOfPair: UserProvider -> string := (u: UserProvider) => u.userHash

  function PairFor(provider: string): UserProvider -> bool {
    (u: UserProvider) => u.provider == provider
  }

  /** A duplicate-free list of the users a provider served always exists. */
  function UsersOfProvider(spans: seq<ServedSpan>, provider: string): seq<string> {
    Dedupe(Map(Filter(ServedPairs(spans), PairFor(provider)), UserOfPair))
  }

  lemma {:induction false} UsersOfProviderAre(spans: seq<ServedSpan>, provider: string)
    ensures ServedUsers(UsersOfProvider(spans, provider), spans, provider)
  {
    PairsAre(spans);
    hide ServedPairs, Served;
    var pairs := Filter(ServedPairs(spans), PairFor(provider));
    forall u ensures u in UsersOfProvider(spans, provider) <==> Served(spans, provider)(u) {
      InMap(pairs, UserOfPair, u);
      if Served(spans, provider)(u) {
        assert UserProvider(u, provider) in pairs && UserOfPair(UserProvider(u, provider)) == u;
      }
      if u in UsersOfProvider(spans, provider) {
        var pair :| pair in pairs && UserOfPair(pair) == u;
        assert pair == UserProvider(u, provider);
      }
    }
  }

  // ---- By how much the direct join did ----

  /** A user's net revenue, once per span. */
  function Inflated(events: seq<Event>, spans: seq<ServedSpan>, positiveTypes: seq<string>,
                    provider: string): string -> int {
    (user: string) => SpanCount(spans, provider)(user) * Net(events, positiveTypes)(user)
  }

  function Excess(events: seq<Event>, spans: seq<ServedSpan>, positiveTypes: seq<string>,
                  provider: string): string -> int {
    (user: string) => (SpanCount(spans, provider)(user) - 1) * Net(events, positiveTypes)(user)
  }

  /** What one event contributes to the direct join: its amount, once per span of its user. */
  function EventPart(spans: seq<ServedSpan>, positiveTypes: seq<string>, provider: string): Event -> int {
    (e: Event) => SpanCount(spans, provider)(e.userHash) * Signed(positiveTypes)(e)
  }

  function IsServed(user: string, provider: string): ServedSpan -> bool {
    (s: ServedSpan) => s == ServedSpan(user, provider)
  }

  lemma {:induction false} CountIsSum(spans: seq<ServedSpan>, user: string, provider: string, amount: int)
    ensures SumWhere(spans, IsServed(user, provider), Always(amount)) == SpanCount(spans, provider)(user) * amount
  {
    if spans != [] {
      CountIsSum(spans[1..], user, provider, amount);
      assert spans == [spans[0]] + spans[1..];
      OneMore(multiset(spans[1..])[ServedSpan(user, provider)], amount);
    }
  }

  lemma {:induction false} OneMore(n: nat, amount: int)
    ensures (n + 1) * amount == n * amount + amount
  {
  }

  function Always(amount: int): ServedSpan -> int {
    (s: ServedSpan) => amount
  }

  function IsOf(provider: string): ServedSpan -> bool {
    (s: ServedSpan) => s.provider == provider
  }

  lemma {:induction false} EventContributes(spans: seq<ServedSpan>, positiveTypes: seq<string>, provider: string,
                                            e: Event)
    requires e.userHash != ""
    ensures Contribution(Filter(spans, SpanHasUser), SameUserDirect, DirectProvider(provider),
                         DirectAmount(positiveTypes))(e)
         == EventPart(spans, positiveTypes, provider)(e)
  {
    var amount := Signed(positiveTypes)(e);
    var named := Filter(spans, SpanHasUser);
    WhereOfMap(Filter(named, SameUserDirect(e)), With(e), DirectProvider(provider), DirectAmount(positiveTypes),
               IsOf(provider), Always(amount));
    WhereOfFilter(named, SameUserDirect(e), IsOf(provider), Always(amount));
    WhereOfFilter(spans, SpanHasUser, Both(SameUserDirect(e), IsOf(provider)), Always(amount));
    WhereCongruent(spans, Both(SpanHasUser, Both(SameUserDirect(e), IsOf(provider))), IsServed(e.userHash, provider),
                   Always(amount), Always(amount));
    CountIsSum(spans, e.userHash, provider, amount);
  }

  lemma {:induction false} NetIsSigned(events: seq<Event>, positiveTypes: seq<string>, user: string)
    ensures Net(events, positiveTypes)(user) == SumWhere(events, OfUser(user), Signed(positiveTypes))
  {
    if events != [] {
      NetIsSigned(events[1..], positiveTypes, user);
    }
  }

  lemma {:induction false} ScaledSum(events: seq<Event>, p: Event -> bool, f: Event -> int, g: Event -> int,
                                     factor: int)
    requires forall e :: e in events && p(e) ==> g(e) == factor * f(e)
    ensures SumWhere(events, p, g) == factor * SumWhere(events, p, f)
  {
    if events != [] {
      ScaledSum(events[1..], p, f, g, factor);
      Distributes(factor, f(events[0]), SumWhere(events[1..], p, f));
    }
  }

  lemma {:induction false} Distributes(k: int, a: int, b: int)
    ensures k * (a + b) == k * a + k * b
  {
  }

  /** The direct join counted every user's revenue once per span. */
  lemma {:induction false} DirectJoinIs(events: seq<Event>, spans: seq<ServedSpan>, positiveTypes: seq<string>,
                                        provider: string, users: seq<string>)
    requires ServedUsers(users, spans, provider)
    ensures DirectRevenue(events, spans, positiveTypes, provider)
      == SumBy(users, Inflated(events, spans, positiveTypes, provider))
  {
    var named, part := Filter(events, HasUser), EventPart(spans, positiveTypes, provider);
    JoinSum(named, Filter(spans, SpanHasUser), SameUserDirect, DirectProvider(provider), DirectAmount(positiveTypes));
    forall e | e in named
      ensures Contribution(Filter(spans, SpanHasUser), SameUserDirect, DirectProvider(provider),
                           DirectAmount(positiveTypes))(e) == part(e)
    {
      EventContributes(spans, positiveTypes, provider, e);
    }
    SumCongruent(named, Contribution(Filter(spans, SpanHasUser), SameUserDirect, DirectProvider(provider),
                                     DirectAmount(positiveTypes)), part);
    hide Filter, SumBy, SumWhere, Net, Signed, EventPart, Contribution, SpanCount;
    WhereIsFilter(events, HasUser, part);
    forall u | u in users
      ensures Inflated(events, spans, positiveTypes, provider)(u) == SumWhere(events, InGroup(HasUser, UserOf, u), part)
    {
      UserPart(events, spans, positiveTypes, provider, u);
    }
    GroupSum(events, HasUser, users, UserOf, part, Inflated(events, spans, positiveTypes, provider));
    forall e | e in events && InGroups(HasUser, UserOf, users)(e) != HasUser(e) ensures part(e) == 0 {
      UnservedPart(spans, positiveTypes, provider, e);
    }
    WhereAgree(events, InGroups(HasUser, UserOf, users), HasUser, part);
  }

  lemma {:induction false} UnservedPart(spans: seq<ServedSpan>, positiveTypes: seq<string>, provider: string, e: Event)
    requires e.userHash != "" && !Served(spans, provider)(e.userHash)
    ensures EventPart(spans, positiveTypes, provider)(e) == 0
  {
    assert SpanCount(spans, provider)(e.userHash) == 0;
    NoneTimes(SpanCount(spans, provider)(e.userHash), Signed(positiveTypes)(e));
  }

  lemma {:induction false} NoneTimes(n: int, amount: int)
    requires n == 0
    ensures n * amount == 0
  {
  }

  lemma {:induction false} UserPart(events: seq<Event>, spans: seq<ServedSpan>, positiveTypes: seq<string>,
                                    provider: string, user: string)
    requires user != ""
    ensures Inflated(events, spans, positiveTypes, provider)(user)
         == SumWhere(events, InGroup(HasUser, UserOf, user), EventPart(spans, positiveTypes, provider))
  {
    NetIsSigned(events, positiveTypes, user);
    hide Net, Signed, SumWhere;
    var part := EventPart(spans, positiveTypes, provider);
    ScaledSum(events, OfUser(user), Signed(positiveTypes), part, SpanCount(spans, provider)(user));
    WhereCongruent(events, OfUser(user), InGroup(HasUser, UserOf, user), part, part);
  }

  /** So the two differ by exactly the extra spans, and agree when no user has more than one with the
      provider. */
  lemma {:induction false} DirectJoinExceeds(events: seq<Event>, spans: seq<ServedSpan>, positiveTypes: seq<string>,
                                             row: ProviderRevenue, users: seq<string>)
    requires row in AttributionRevenue(events, spans, positiveTypes) && ServedUsers(users, spans, row.provider)
    ensures DirectRevenue(events, spans, positiveTypes, row.provider) - row.revenue
         == SumBy(users, Excess(events, spans, positiveTypes, row.provider))
    ensures (forall u :: u in users ==> SpanCount(spans, row.provider)(u) <= 1) ==>
      DirectRevenue(events, spans, positiveTypes, row.provider) == row.revenue
  {
    hide AttributionRevenue, Net, SpanCount, DirectRevenue, Reported, Served, MoneyEvents, Active;
    RevenueIs(events, spans, positiveTypes);
    assert RowMeans(row, events, users, positiveTypes);
    DirectJoinIs(events, spans, positiveTypes, row.provider, users);
    var net := Net(events, positiveTypes);
    var excess, inflated := Excess(events, spans, positiveTypes, row.provider),
      Inflated(events, spans, positiveTypes, row.provider);
    forall u | u in users ensures inflated(u) == net(u) + excess(u) {
      OneLess(SpanCount(spans, row.provider)(u), net(u));
    }
    SumAdd(users, net, excess, inflated);
    if forall u :: u in users ==> SpanCount(spans, row.provider)(u) <= 1 {
      forall u | u in users ensures excess(u) == 0 {
        ServedOnce(spans, row.provider, users, u);
        assert SpanCount(spans, row.provider)(u) - 1 == 0;
      }
      SumZero(users, excess);
    }
  }

  lemma {:induction false} OneLess(n: int, amount: int)
    ensures n * amount == amount + (n - 1) * amount
  {
  }

  lemma {:induction false} ServedOnce(spans: seq<ServedSpan>, provider: string, users: seq<string>, user: string)
    requires ServedUsers(users, spans, provider) && user in users
    ensures SpanCount(spans, provider)(user) >= 1
  {
    assert ServedSpan(user, provider) in multiset(spans);
  }
}
