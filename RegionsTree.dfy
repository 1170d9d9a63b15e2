/**
 * The region-tree tool handler: the only consumer of the cache. A live, truthy entry
 * under `regions_tree` is answered from the cache with a "served from cache" annotation
 * and no upstream call; anything else makes exactly one upstream call and, when it
 * succeeds, stores the result for 24 hours.
 */
module RegionsTree {
  import opened Wrappers
  import opened JsonValue
  import opened TtlCache
  import opened Client

  const CACHE_KEY: string := "regions_tree"
  const CACHED_FLAG: string := "_cached"
  const CACHE_INFO_KEY: string := "_cacheInfo"
  const CACHE_INFO: string := "Данные из кэша (TTL: 24 часа)"

  /** `{...cached, _cached: true, _cacheInfo: ...}`: a new object; the payload's own
      fields are copied and the two annotation keys are set last, overriding any field
      of the same name. */
  function Annotated(v: Json): (a: Json)
    ensures a.JObj?
    ensures a.fields.Keys == SpreadFields(v).Keys + {CACHED_FLAG, CACHE_INFO_KEY}
    ensures a.fields[CACHED_FLAG] == JBool(true) && a.fields[CACHE_INFO_KEY] == JStr(CACHE_INFO)
    ensures forall k :: k in SpreadFields(v) && k != CACHED_FLAG && k != CACHE_INFO_KEY ==>
      a.fields[k] == SpreadFields(v)[k]
  {
    JObj(SpreadFields(v)[CACHED_FLAG := JBool(true)][CACHE_INFO_KEY := JStr(CACHE_INFO)])
  }

  /** An object payload keeps all its own fields in the annotated copy. */
  lemma AnnotatedKeepsObjectFields(fields: map<string, Json>, k: string)
    requires k in fields && k != CACHED_FLAG && k != CACHE_INFO_KEY
    ensures k in Annotated(JObj(fields)).fields && Annotated(JObj(fields)).fields[k] == fields[k]
  {
  }

  /** The effect of one invocation: the cache afterwards, the handler's result, and how
      many upstream calls it made. */
  datatype Invocation = Invocation(store: map<string, Entry<Json>>, result: Result<Json, ClientError>, upstreamCalls: nat)

  /** True when a read at `now` answers from the cache. */
  predicate IsHit(store: map<string, Entry<Json>>, now: int)
    ensures IsHit(store, now) <==>
      CACHE_KEY in store && now <= store[CACHE_KEY].expiresAt && Truthy(store[CACHE_KEY].value)
  {
    var cached := Lookup(store, CACHE_KEY, now);
    cached.Some? && Truthy(cached.value)
  }

  /** One invocation: the cache is read at `now`; on a miss the upstream answers with
      `upstream` and, if that succeeded, the result is stored at `fetchedAt`. */
  function Handle(store: map<string, Entry<Json>>, now: int, fetchedAt: int, upstream: Result<Json, ClientError>): (inv: Invocation)
    ensures IsHit(store, now) ==>
      inv == Invocation(store, Success(Annotated(store[CACHE_KEY].value)), 0)
    ensures !IsHit(store, now) && upstream.Failure? ==>
      inv == Invocation(AfterRead(store, CACHE_KEY, now), upstream, 1)
    ensures !IsHit(store, now) && upstream.Success? ==>
      inv == Invocation(store[CACHE_KEY := Entry(upstream.value, fetchedAt + REGIONS_TREE_TTL)], upstream, 1)
    ensures inv.store - {CACHE_KEY} == store - {CACHE_KEY}
  {
    var cached := Lookup(store, CACHE_KEY, now);
    var afterGet := AfterRead(store, CACHE_KEY, now);
    if cached.Some? && Truthy(cached.value) then
      Invocation(afterGet, Success(Annotated(cached.value)), 0)
    else if upstream.Failure? then
      Invocation(afterGet, upstream, 1)
    else
      Invocation(Stored(afterGet, CACHE_KEY, upstream.value, REGIONS_TREE_TTL, fetchedAt), upstream, 1)
  }

  /** `handleRegionsTree`. `now` is the clock when the cache is read and `fetchedAt` the
      clock when the result is stored (after the upstream call returns). */
  method HandleRegionsTree(
    cache: Cache<Json>, client: WordstatClient, now: int, fetchedAt: int, send: HttpRequest -> Exchange)
    returns (r: Result<Json, ClientError>, ghost upstreamCalls: nat, ghost sent: seq<HttpRequest>)
    modifies cache
    ensures |sent| == upstreamCalls
    ensures forall req :: req in sent ==> req == Outbound(client.token, REGIONS_TREE_PATH, None)
    ensures Handle(old(cache.store), now, fetchedAt, Interpret(send(Outbound(client.token, REGIONS_TREE_PATH, None))))
         == Invocation(cache.store, r, upstreamCalls)
  {
    var cached := cache.Get(CACHE_KEY, now);
    if cached.Some? && Truthy(cached.value) {
      return Success(Annotated(cached.value)), 0, [];
    }
    ghost var req;
    var result;
    req, result := client.GetRegionsTree(send);
    upstreamCalls, sent := 1, [req];
    if result.Failure? {
      return result, upstreamCalls, sent;
    }
    cache.Set(CACHE_KEY, result.value, REGIONS_TREE_TTL, fetchedAt);
    r := result;
  }

  /** A hit writes nothing to the cache and makes no upstream call. */
  lemma HitChangesNothing(store: map<string, Entry<Json>>, now: int, fetchedAt: int, upstream: Result<Json, ClientError>)
    requires IsHit(store, now)
    ensures Handle(store, now, fetchedAt, upstream).store == store
    ensures Handle(store, now, fetchedAt, upstream).upstreamCalls == 0
  {
  }

  /** A successful fetch completing at `t` with a truthy tree makes every invocation
      that reads the cache at `t + 24 h` or earlier a hit returning that tree. */
  lemma FreshAfterFetch(store: map<string, Entry<Json>>, now: int, t: int, tree: Json, later: int, laterDone: int, upstream: Result<Json, ClientError>)
    requires !IsHit(store, now) && Truthy(tree)
    requires later <= t + REGIONS_TREE_TTL
    ensures var next := Handle(store, now, t, Success(tree)).store;
      IsHit(next, later) &&
      Handle(next, later, laterDone, upstream) == Invocation(next, Success(Annotated(tree)), 0)
  {
  }

  /** After `t + 24 h` the next invocation calls upstream again and, on success,
      replaces the entry. */
  lemma RefetchAfterExpiry(store: map<string, Entry<Json>>, now: int, t: int, tree: Json, later: int, laterDone: int, tree': Json)
    requires !IsHit(store, now)
    requires later > t + REGIONS_TREE_TTL
    ensures var next := Handle(store, now, t, Success(tree)).store;
      Handle(next, later, laterDone, Success(tree')) ==
        Invocation(next[CACHE_KEY := Entry(tree', laterDone + REGIONS_TREE_TTL)], Success(tree'), 1)
  {
  }

  /** A failed upstream call writes nothing: the cache only loses the expired entry the
      read already dropped, and the failure is what the handler reports. */
  lemma FailureIsNotCached(store: map<string, Entry<Json>>, now: int, fetchedAt: int, e: ClientError)
    requires !IsHit(store, now)
    ensures Handle(store, now, fetchedAt, Failure(e)).store == AfterRead(store, CACHE_KEY, now)
    ensures Handle(store, now, fetchedAt, Failure(e)).result == Failure(e)
    ensures CACHE_KEY in Handle(store, now, fetchedAt, Failure(e)).store ==>
      Handle(store, now, fetchedAt, Failure(e)).store == store
  {
  }

  /** One invocation of a sequence: when the cache is read, when the upstream call (if
      any) finishes, and what it returns. */
  datatype Call = Call(now: int, fetchedAt: int, upstream: Result<Json, ClientError>)

  /** A run of invocations one after the other: the final cache and the total number of
      upstream calls. */
  function Run(store: map<string, Entry<Json>>, calls: seq<Call>): (out: (map<string, Entry<Json>>, nat))
    ensures out.1 <= |calls|
    decreases |calls|
  {
    if calls == [] then (store, 0)
    else
      var inv := Handle(store, calls[0].now, calls[0].fetchedAt, calls[0].upstream);
      var rest := Run(inv.store, calls[1..]);
      (rest.0, inv.upstreamCalls + rest.1)
  }

  /** While the stored tree is live, no invocation in a run calls upstream, and the
      cache ends as it began. */
  lemma {:induction false} NoUpstreamWhileLive(store: map<string, Entry<Json>>, calls: seq<Call>)
    requires CACHE_KEY in store && Truthy(store[CACHE_KEY].value)
    requires forall i :: 0 <= i < |calls| ==> calls[i].now <= store[CACHE_KEY].expiresAt
    ensures Run(store, calls) == (store, 0)
    decreases |calls|
  {
    if calls != [] {
      assert IsHit(store, calls[0].now);
      NoUpstreamWhileLive(store, calls[1..]);
    }
  }

  /** Over a whole day after a successful fetch, one upstream call serves every
      invocation: a run that starts with a miss and whose later reads all fall within
      24 h of that fetch makes exactly one upstream call. A run is sequential: in the
      source the handler awaits the fetch between reading and writing the cache, so
      invocations that overlap on an empty or expired cache can each miss and each call
      upstream, which this lemma does not cover. */
  lemma {:induction false} OneCallPerDay(store: map<string, Entry<Json>>, first: Call, calls: seq<Call>)
    requires !IsHit(store, first.now)
    requires first.upstream.Success? && Truthy(first.upstream.value)
    requires forall i :: 0 <= i < |calls| ==> calls[i].now <= first.fetchedAt + REGIONS_TREE_TTL
    ensures Run(store, [first] + calls).1 == 1
  {
    var inv := Handle(store, first.now, first.fetchedAt, first.upstream);
    assert ([first] + calls)[1..] == calls;
    NoUpstreamWhileLive(inv.store, calls);
  }

  /** Across any run, no key other than `regions_tree` changes. */
  lemma {:induction false} RunTouchesOnlyItsKey(store: map<string, Entry<Json>>, calls: seq<Call>)
    ensures Run(store, calls).0 - {CACHE_KEY} == store - {CACHE_KEY}
    decreases |calls|
  {
    if calls != [] {
      var inv := Handle(store, calls[0].now, calls[0].fetchedAt, calls[0].upstream);
      RunTouchesOnlyItsKey(inv.store, calls[1..]);
    }
  }
}
