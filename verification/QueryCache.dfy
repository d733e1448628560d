/** The cached analytical read (rowsPCached in web/lib/clickhouse.ts): a time-to-live map of promises
    that also coalesces in-flight queries. Modelled as its steps, and as the code that takes them. */
module QueryCache {
  import opened Results

  const CACHED_QUERY_TTL_MS := 8000
  const SWEEP_ABOVE := 256

  datatype Entry = Entry(at: int, promise: nat)

  /** A rejection is handled when the `catch` registered with it has run. */
  datatype Status = Pending | Resolved | Rejected(handled: bool)

  /** One query sent to the database. */
  datatype Query = Query(key: string, issuedAt: int, status: Status)

  /** One call, and the promise it was given to wait on. */
  datatype CallRecord = CallRecord(key: string, now: int, promise: nat)

  datatype State = State(cached: map<string, Entry>, queries: seq<Query>, calls: seq<CallRecord>, clock: int)

  const INITIAL := State(map[], [], [], 0)

  datatype Step =
    | Call(key: string, now: int)
    | Resolve(promise: nat)
    | Reject(promise: nat)
    | HandleRejection(promise: nat)
    | Reset

  // ---- The steps ----

  predicate IsHit(cached: map<string, Entry>, key: string, now: int) {
    key in cached && now - cached[key].at < CACHED_QUERY_TTL_MS
  }

  function Swept(cached: map<string, Entry>, now: int): map<string, Entry> {
    map k | k in cached && now - cached[k].at < CACHED_QUERY_TTL_MS :: cached[k]
  }

  function Stored(cached: map<string, Entry>, key: string, now: int, promise: nat): map<string, Entry> {
    var stored := cached[key := Entry(now, promise)];
    if |stored| > SWEEP_ABOVE then Swept(stored, now) else stored
  }

  function Evicted(cached: map<string, Entry>, key: string, promise: nat): map<string, Entry> {
    if key in cached && cached[key].promise == promise then cached - {key} else cached
  }

  /** Time does not run backwards, and only outstanding promises settle. */
  predicate Enabled(s: State, step: Step) {
    match step
    case Call(_, now) => now >= s.clock
    case Resolve(p) => p < |s.queries| && s.queries[p].status == Pending
    case Reject(p) => p < |s.queries| && s.queries[p].status == Pending
    case HandleRejection(p) => p < |s.queries| && s.queries[p].status == Rejected(false)
    case Reset => true
  }

  function After(s: State, step: Step): State
    requires Enabled(s, step)
  {
    match step
    case Call(key, now) =>
      if IsHit(s.cached, key, now) then
        s.(calls := s.calls + [CallRecord(key, now, s.cached[key].promise)], clock := now)
      else
        State(Stored(s.cached, key, now, |s.queries|), s.queries + [Query(key, now, Pending)],
              s.calls + [CallRecord(key, now, |s.queries|)], now)
    case Resolve(p) => s.(queries := s.queries[p := s.queries[p].(status := Resolved)])
    case Reject(p) => s.(queries := s.queries[p := s.queries[p].(status := Rejected(false))])
    case HandleRejection(p) =>
      s.(cached := Evicted(s.cached, s.queries[p].key, p),
         queries := s.queries[p := s.queries[p].(status := Rejected(true))])
    case Reset => s.(cached := map[])
  }

  predicate CanRun(s: State, steps: seq<Step>)
    decreases |steps|
  {
    steps == [] || (Enabled(s, steps[0]) && CanRun(After(s, steps[0]), steps[1..]))
  }

  function Run(s: State, steps: seq<Step>): State
    requires CanRun(s, steps)
    decreases |steps|
  {
    if steps == [] then s else Run(After(s, steps[0]), steps[1..])
  }

  // ---- What every run keeps ----

  ghost predicate EntryIsSound(s: State, k: string)
    requires k in s.cached
  {
    var e := s.cached[k];
    && e.promise < |s.queries|
    && s.queries[e.promise].key == k && s.queries[e.promise].issuedAt == e.at
    && s.queries[e.promise].status != Rejected(true)
    && forall q :: e.promise < q < |s.queries| ==> s.queries[q].key != k
  }

  ghost predicate CallIsSound(s: State, c: CallRecord) {
    && c.promise < |s.queries|
    && s.queries[c.promise].key == c.key
    && 0 <= c.now - s.queries[c.promise].issuedAt < CACHED_QUERY_TTL_MS
  }

  ghost predicate Sound(s: State) {
    && (forall k :: k in s.cached ==> EntryIsSound(s, k))
    && (forall q :: 0 <= q < |s.queries| ==> s.queries[q].issuedAt <= s.clock)
    && (forall c :: c in s.calls ==> CallIsSound(s, c))
  }

  lemma {:induction false} HitKeepsSound(s: State, key: string, now: int)
    requires Sound(s) && Enabled(s, Call(key, now)) && IsHit(s.cached, key, now)
    ensures Sound(After(s, Call(key, now)))
  {
    var t := After(s, Call(key, now));
    assert EntryIsSound(s, key);
    forall k | k in t.cached ensures EntryIsSound(t, k) {
      assert EntryIsSound(s, k);
    }
    forall c | c in t.calls ensures CallIsSound(t, c) {
      assert c in s.calls ==> CallIsSound(s, c);
    }
  }

  lemma {:induction false} StoredKeeps(cached: map<string, Entry>, key: string, now: int, promise: nat)
    ensures var stored := Stored(cached, key, now, promise);
      forall k :: k in stored ==>
        if k == key then stored[k] == Entry(now, promise) else k in cached && stored[k] == cached[k]
  {
  }

  lemma {:induction false} IssuingKeepsEntry(s: State, t: State, k: string, key: string, now: int)
    requires k in s.cached && EntryIsSound(s, k) && k != key && k in t.cached && t.cached[k] == s.cached[k]
    requires t.queries == s.queries + [Query(key, now, Pending)]
    ensures EntryIsSound(t, k)
  {
  }

  lemma {:induction false} MissKeepsSound(s: State, key: string, now: int)
    requires Sound(s) && Enabled(s, Call(key, now)) && !IsHit(s.cached, key, now)
    ensures Sound(After(s, Call(key, now)))
  {
    var t := After(s, Call(key, now));
    StoredKeeps(s.cached, key, now, |s.queries|);
    hide Stored;
    forall k | k in t.cached ensures EntryIsSound(t, k) {
      if k != key {
        IssuingKeepsEntry(s, t, k, key, now);
      }
    }
    hide EntryIsSound;
    forall c | c in t.calls ensures CallIsSound(t, c) {
      assert c in s.calls ==> CallIsSound(s, c);
    }
  }

  lemma {:induction false} CallKeepsSound(s: State, key: string, now: int)
    requires Sound(s) && Enabled(s, Call(key, now))
    ensures Sound(After(s, Call(key, now)))
  {
    hide Sound, After;
    if IsHit(s.cached, key, now) {
      HitKeepsSound(s, key, now);
    } else {
      MissKeepsSound(s, key, now);
    }
  }

  /** A promise settling, or its rejection being handled, changes nothing else about its query. */
  lemma {:induction false} SettlingKeepsSound(s: State, t: State, p: nat, status: Status)
    requires Sound(s) && p < |s.queries|
    requires t.queries == s.queries[p := s.queries[p].(status := status)] && t.calls == s.calls && t.clock == s.clock
    requires forall k :: k in t.cached ==> k in s.cached && t.cached[k] == s.cached[k]
    requires status == Rejected(true) ==> forall k :: k in t.cached ==> t.cached[k].promise != p
    ensures Sound(t)
  {
    forall k | k in t.cached ensures EntryIsSound(t, k) {
      assert EntryIsSound(s, k);
    }
    forall c | c in t.calls ensures CallIsSound(t, c) {
      assert CallIsSound(s, c);
    }
  }

  lemma {:induction false} StepKeepsSound(s: State, step: Step)
    requires Sound(s) && Enabled(s, step)
    ensures Sound(After(s, step))
  {
    var t := After(s, step);
    match step
    case Call(key, now) => CallKeepsSound(s, key, now);
    case Resolve(p) => SettlingKeepsSound(s, t, p, Resolved);
    case Reject(p) => SettlingKeepsSound(s, t, p, Rejected(false));
    case HandleRejection(p) =>
      EvictionIsGuarded(s, p);
      SettlingKeepsSound(s, t, p, Rejected(true));
    case Reset =>
  }

  lemma {:induction false} RunKeepsSound(s: State, steps: seq<Step>)
    requires Sound(s) && CanRun(s, steps)
    ensures Sound(Run(s, steps))
    decreases |steps|
  {
    if steps != [] {
      StepKeepsSound(s, steps[0]);
      RunKeepsSound(After(s, steps[0]), steps[1..]);
    }
  }

  /** In every run, each call was given a query for its own key that was issued less than eight seconds
      before it; a handled rejection is never in the map; and the map holds the newest query of each of
      its keys. */
  lemma {:induction false} ServesOnlyFreshMatches(steps: seq<Step>)
    requires CanRun(INITIAL, steps)
    ensures var s := Run(INITIAL, steps);
      && (forall c :: c in s.calls ==>
           && c.promise < |s.queries| && s.queries[c.promise].key == c.key
           && s.queries[c.promise].issuedAt <= c.now < s.queries[c.promise].issuedAt + CACHED_QUERY_TTL_MS)
      && (forall k :: k in s.cached ==>
           && s.cached[k].promise < |s.queries| && s.queries[s.cached[k].promise].key == k
           && s.queries[s.cached[k].promise].status != Rejected(true)
           && forall q :: s.cached[k].promise < q < |s.queries| ==> s.queries[q].key != k)
  {
    RunKeepsSound(INITIAL, steps);
    var s := Run(INITIAL, steps);
    assert forall c :: c in s.calls ==> CallIsSound(s, c);
    assert forall k :: k in s.cached ==> EntryIsSound(s, k);
  }

  // ---- Coalescing ----

  /** The step neither resets the map nor handles this promise's rejection, and happens before the
      entry expires. */
  predicate Leaves(step: Step, e: Entry) {
    && step != Reset && step != HandleRejection(e.promise)
    && (step.Call? ==> step.now - e.at < CACHED_QUERY_TTL_MS)
  }

  lemma {:induction false} EntryStays(s: State, steps: seq<Step>, key: string)
    requires CanRun(s, steps) && key in s.cached
    requires forall step :: step in steps ==> Leaves(step, s.cached[key])
    ensures key in Run(s, steps).cached && Run(s, steps).cached[key] == s.cached[key]
    decreases |steps|
  {
    if steps != [] {
      assert steps[0] in steps && forall step :: step in steps[1..] ==> step in steps;
      assert key in After(s, steps[0]).cached && After(s, steps[0]).cached[key] == s.cached[key];
      EntryStays(After(s, steps[0]), steps[1..], key);
    }
  }

  /** The caller's own entry is there after the call: it was hit, or has just been stored and is too
      young to sweep. So a call always starts a window. */
  lemma {:induction false} CallLeavesItsEntry(s: State, key: string, now: int)
    requires Enabled(s, Call(key, now))
    ensures var t := After(s, Call(key, now));
      key in t.cached && t.calls == s.calls + [CallRecord(key, now, t.cached[key].promise)]
  {
  }

  /** The entry a call waits on. */
  function EntryOf(s: State, key: string, now: int): (e: Entry)
    requires Enabled(s, Call(key, now))
    ensures key in After(s, Call(key, now)).cached && After(s, Call(key, now)).cached[key] == e
  {
    CallLeavesItsEntry(s, key, now);
    After(s, Call(key, now)).cached[key]
  }

  /** Two calls within the window, with no eviction or reset between them, share one query, in flight
      or answered: the second sends nothing and waits on the promise of the first. */
  lemma {:induction false} CallsShareOneQuery(s: State, key: string, first: int, between: seq<Step>, second: int)
    requires Sound(s) && Enabled(s, Call(key, first))
    requires var t, e := After(s, Call(key, first)), EntryOf(s, key, first);
      && CanRun(t, between) && Enabled(Run(t, between), Call(key, second))
      && second - e.at < CACHED_QUERY_TTL_MS && forall step :: step in between ==> Leaves(step, e)
    ensures var t := Run(After(s, Call(key, first)), between);
      var u := After(t, Call(key, second));
      && u.queries == t.queries && |u.calls| > 0
      && u.calls[|u.calls| - 1].promise == After(s, Call(key, first)).calls[|s.calls|].promise
  {
    CallLeavesItsEntry(s, key, first);
    EntryStays(After(s, Call(key, first)), between, key);
  }

  // ---- When a query is sent ----

  /** What one call does. It is answered by the map exactly when the map holds an entry for its key stored
      less than eight seconds ago, and then nothing is sent and nothing changes in the map. Otherwise one
      query for the key is sent and stored; other entries stay, unless the map has grown above 256 entries,
      when exactly those eight seconds old or older go. */
  lemma {:induction false} CallSendsExactly(s: State, key: string, now: int)
    requires Enabled(s, Call(key, now))
    ensures var t, hit := After(s, Call(key, now)), key in s.cached && now - s.cached[key].at < 8000;
      && (hit ==> t.queries == s.queries && t.cached == s.cached)
      && (!hit ==>
           && t.queries == s.queries + [Query(key, now, Pending)] && key in t.cached
           && t.cached[key] == Entry(now, |s.queries|)
           && forall k :: k in t.cached && k != key ==> k in s.cached && t.cached[k] == s.cached[k])
      && (!hit ==> forall k :: k in s.cached && k != key ==>
           (k in t.cached <==> |s.cached.Keys + {key}| <= 256 || now - s.cached[k].at < 8000))
      && t.calls == s.calls + [CallRecord(key, now, if hit then s.cached[key].promise else |s.queries|)]
  {
    assert s.cached[key := Entry(now, |s.queries|)].Keys == s.cached.Keys + {key};
    SizeIsKeys(s.cached[key := Entry(now, |s.queries|)]);
  }

  lemma {:induction false} SizeIsKeys(m: map<string, Entry>)
    ensures |m| == |m.Keys|
  {
  }

  /** After a reset every key is asked anew. */
  lemma {:induction false} ResetForgets(s: State, key: string, now: int)
    requires now >= s.clock
    ensures var t := After(s, Reset);
      After(t, Call(key, now)).queries == s.queries + [Query(key, now, Pending)]
  {
    CallSendsExactly(After(s, Reset), key, now);
  }

  // ---- Eviction ----

  /** Handling a rejection removes at most the rejected promise: an entry holding another, newer one,
      even for the same key, stays. */
  lemma {:induction false} EvictionIsGuarded(s: State, p: nat)
    requires Sound(s) && Enabled(s, HandleRejection(p))
    ensures var t := After(s, HandleRejection(p));
      && (forall k :: k in t.cached ==> t.cached[k].promise != p)
      && (forall k :: k in s.cached && s.cached[k].promise != p ==> k in t.cached && t.cached[k] == s.cached[k])
      && (forall k :: k in t.cached ==> k in s.cached)
  {
    forall k | k in s.cached && s.cached[k].promise == p ensures k == s.queries[p].key {
      assert EntryIsSound(s, k);
    }
  }

  ghost predicate Handled(s: State, p: nat) {
    p < |s.queries| && s.queries[p].status == Rejected(true)
  }

  lemma {:induction false} StepKeepsHandled(s: State, step: Step, p: nat)
    requires Sound(s) && Enabled(s, step) && Handled(s, p)
    ensures Handled(After(s, step), p)
    ensures |s.calls| <= |After(s, step).calls| && After(s, step).calls[..|s.calls|] == s.calls
    ensures forall i :: |s.calls| <= i < |After(s, step).calls| ==> After(s, step).calls[i].promise != p
  {
    if step.Call? && step.key in s.cached {
      assert EntryIsSound(s, step.key);
    }
  }

  lemma {:induction false} HandledStaysHandled(s: State, steps: seq<Step>, p: nat)
    requires Sound(s) && CanRun(s, steps) && Handled(s, p)
    ensures var calls := Run(s, steps).calls;
      && |s.calls| <= |calls| && calls[..|s.calls|] == s.calls
      && forall i :: |s.calls| <= i < |calls| ==> calls[i].promise != p
    decreases |steps|
  {
    if steps != [] {
      hide Sound, Enabled, After, Handled;
      var t := After(s, steps[0]);
      StepKeepsSound(s, steps[0]);
      StepKeepsHandled(s, steps[0], p);
      HandledStaysHandled(t, steps[1..], p);
      var calls := Run(t, steps[1..]).calls;
      forall i | |s.calls| <= i < |calls| ensures calls[i].promise != p {
        if i < |t.calls| {
          assert calls[i] == calls[..|t.calls|][i];
        }
      }
    }
  }

  /** An error is never replayed: once its rejection has been handled, no later call of any run is given
      that promise. */
  lemma {:induction false} ErrorsAreNotReplayed(before: seq<Step>, p: nat, later: seq<Step>)
    requires CanRun(INITIAL, before) && Enabled(Run(INITIAL, before), HandleRejection(p))
    requires CanRun(After(Run(INITIAL, before), HandleRejection(p)), later)
    ensures var s := After(Run(INITIAL, before), HandleRejection(p));
      forall i :: |s.calls| <= i < |Run(s, later).calls| ==> Run(s, later).calls[i].promise != p
  {
    RunKeepsSound(INITIAL, before);
    StepKeepsSound(Run(INITIAL, before), HandleRejection(p));
    HandledStaysHandled(After(Run(INITIAL, before), HandleRejection(p)), later, p);
  }

  /** A map above the limit holds only entries that were unexpired when the newest query was issued. */
  ghost predicate Bounded(s: State) {
    |s.cached| <= SWEEP_ABOVE
    || (s.queries != [] && forall k :: k in s.cached ==>
          s.queries[|s.queries| - 1].issuedAt - s.cached[k].at < CACHED_QUERY_TTL_MS)
  }

  lemma {:induction false} EvictionShrinks(cached: map<string, Entry>, key: string, promise: nat)
    ensures |Evicted(cached, key, promise)| <= |cached|
    ensures forall k :: k in Evicted(cached, key, promise) ==>
      k in cached && Evicted(cached, key, promise)[k] == cached[k]
  {
    assert key in cached ==> |cached - {key}| == |cached| - 1;
  }

  lemma {:induction false} StepKeepsBounded(s: State, step: Step)
    requires Bounded(s) && Enabled(s, step)
    ensures Bounded(After(s, step))
  {
    if step.HandleRejection? {
      EvictionShrinks(s.cached, s.queries[step.promise].key, step.promise);
    }
  }

  lemma {:induction false} RunKeepsBounded(s: State, steps: seq<Step>)
    requires Bounded(s) && CanRun(s, steps)
    ensures Bounded(Run(s, steps))
    decreases |steps|
  {
    hide Bounded, After, Enabled;
    if steps != [] {
      StepKeepsBounded(s, steps[0]);
      RunKeepsBounded(After(s, steps[0]), steps[1..]);
    }
  }

  /** The map cannot grow without bound. After any run it holds at most 256 entries, or only the answers
      of queries issued less than eight seconds before the newest one. */
  lemma {:induction false} MapStaysBounded(steps: seq<Step>)
    requires CanRun(INITIAL, steps)
    ensures var s := Run(INITIAL, steps);
      |s.cached| <= SWEEP_ABOVE
      || forall k :: k in s.cached ==>
           && s.cached[k].promise < |s.queries|
           && s.queries[|s.queries| - 1].issuedAt - s.queries[s.cached[k].promise].issuedAt < CACHED_QUERY_TTL_MS
  {
    RunKeepsBounded(INITIAL, steps);
    RunKeepsSound(INITIAL, steps);
    var s := Run(INITIAL, steps);
    hide Run, CanRun;
    assert forall k :: k in s.cached ==> EntryIsSound(s, k);
  }

  // ---- The code that takes the steps ----

  class Cache {
    var cached: map<string, Entry>
    /** What the database side has been asked, and who was given what. */
    ghost var queries: seq<Query>
    ghost var calls: seq<CallRecord>
    ghost var clock: int
    var issued: nat

    ghost predicate Valid()
      reads this
    {
      issued == |queries|
    }

    ghost function View(): State
      reads this
    {
      State(cached, queries, calls, clock)
    }

    constructor ()
      ensures Valid() && View() == INITIAL
    {
      cached, queries, calls, clock, issued := map[], [], [], 0, 0;
    }

    method ResetQueryCache()
      requires Valid()
      modifies this
      ensures Valid() && View() == After(old(View()), Reset)
    {
      cached := map[];
    }

    /** The call up to its `await`: the promise it will wait on. */
    method RowsPCached(key: string, now: int) returns (promise: nat)
      requires Valid() && Enabled(View(), Call(key, now))
      modifies this
      ensures Valid() && View() == After(old(View()), Call(key, now))
      ensures promise == calls[|calls| - 1].promise
    {
      if key in cached && now - cached[key].at < CACHED_QUERY_TTL_MS {
        promise := cached[key].promise;
        calls := calls + [CallRecord(key, now, promise)];
        clock := now;
        return;
      }
      promise := issued;
      issued := issued + 1;
      cached := cached[key := Entry(now, promise)];
      if |cached| > SWEEP_ABOVE {
        var kept := Sweep(cached, now);
        cached := kept;
      }
      queries := queries + [Query(key, now, Pending)];
      calls := calls + [CallRecord(key, now, promise)];
      clock := now;
    }

    /** The database answers. */
    ghost method Settle(promise: nat, status: Status)
      requires Valid() && promise < |queries| && queries[promise].status == Pending
      requires status == Resolved || status == Rejected(false)
      modifies this`queries
      ensures Valid() && View() == After(old(View()), if status == Resolved then Resolve(promise) else Reject(promise))
    {
      queries := queries[promise := queries[promise].(status := status)];
    }

    /** `promise.catch(...)` */
    method OnRejected(key: string, promise: nat)
      requires Valid() && Enabled(View(), HandleRejection(promise)) && queries[promise].key == key
      modifies this
      ensures Valid() && View() == After(old(View()), HandleRejection(promise))
    {
      if key in cached && cached[key].promise == promise {
        cached := cached - {key};
      }
      queries := queries[promise := queries[promise].(status := Rejected(true))];
    }
  }

  /** `for (const [k, v] of map) if (expired) map.delete(k)` */
  method Sweep(cached: map<string, Entry>, now: int) returns (kept: map<string, Entry>)
    ensures kept == Swept(cached, now)
  {
    kept := cached;
    var rest := cached.Keys;
    while rest != {}
      invariant rest <= cached.Keys
      invariant forall k :: k in kept <==> k in cached && (k in rest || now - cached[k].at < CACHED_QUERY_TTL_MS)
      invariant forall k :: k in kept ==> kept[k] == cached[k]
      decreases |rest|
    {
      var k :| k in rest;
      rest := rest - {k};
      if now - cached[k].at >= CACHED_QUERY_TTL_MS {
        kept := kept - {k};
      }
    }
  }

  /** Each caller gets a copy: whatever it does to its rows in place, the shared ones stay. */
  method CopyRows<T>(shared: array<T>) returns (copy: array<T>)
    ensures fresh(copy) && copy[..] == shared[..] && shared[..] == old(shared[..])
  {
    if shared.Length == 0 {
      copy := new T[0];
    } else {
      copy := new T[shared.Length](i requires 0 <= i < shared.Length reads shared => shared[i]);
    }
  }
}
