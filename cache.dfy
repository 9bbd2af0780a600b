/**
 * The request cache of the dashboard: an in-memory key/entry map with a
 * per-entry time to live, a map of in-flight requests used to deduplicate
 * concurrent fetches, a bounded snapshot persisted in the browser's storage,
 * and the decision `cachedFetch` takes between a cache hit, joining an
 * in-flight request and a new request. The clock is the `now` parameter;
 * promises are numbered, and their settlement is the explicit `Settle` step.
 */
module CacheService {
  import opened Wrappers
  import opened Text
  import opened JsonValue

  /** The TTL `set` and `cachedFetch` use when none is given. */
  const DefaultTtl: int := 30000
  /** Age after which the periodic sweep forgets an in-flight request. */
  const PendingMaxAge: int := 30000
  /** Number of entries the persisted snapshot keeps. */
  const SnapshotLimit: nat := 50

  datatype CacheEntry = CacheEntry(data: Json, timestamp: int, ttl: int)

  /** An in-flight request: the promise (by number) and when it was registered. */
  datatype PendingRequest = PendingRequest(promise: nat, timestamp: int)

  /** `get`'s test: an entry is expired only once strictly more than `ttl` has elapsed. */
  predicate Expired(e: CacheEntry, now: int) {
    now - e.timestamp > e.ttl
  }

  /** `loadFromStorage`'s test: strictly less than `ttl` has elapsed. */
  predicate Restorable(e: CacheEntry, now: int) {
    now - e.timestamp < e.ttl
  }

  /** The value `get` answers for `key` at time `now`. */
  function Lookup(cache: map<string, CacheEntry>, key: string, now: int): (r: Option<Json>)
    ensures r.Some? <==> key in cache && now - cache[key].timestamp <= cache[key].ttl
    ensures r.Some? ==> r.value == cache[key].data
  {
    if key in cache && !Expired(cache[key], now) then Some(cache[key].data) else None
  }

  /** The entry map after `get`: an expired entry for `key` is deleted, nothing else changes. */
  function AfterLookup(cache: map<string, CacheEntry>, key: string, now: int): (r: map<string, CacheEntry>)
    ensures key in cache && Expired(cache[key], now) ==> key !in r && r == cache - {key}
    ensures !(key in cache && Expired(cache[key], now)) ==> r == cache
  {
    if key in cache && Expired(cache[key], now) then cache - {key} else cache
  }

  /** The entries a sweep at `now` keeps. */
  function Swept(cache: map<string, CacheEntry>, now: int): (r: map<string, CacheEntry>)
    ensures forall k :: k in r <==> k in cache && !Expired(cache[k], now)
    ensures forall k :: k in r ==> r[k] == cache[k]
  {
    map k | k in cache && !Expired(cache[k], now) :: cache[k]
  }

  /** The in-flight requests a sweep at `now` keeps. */
  function SweptPending(pending: map<string, PendingRequest>, now: int): (r: map<string, PendingRequest>)
    ensures forall k :: k in r <==> k in pending && now - pending[k].timestamp <= PendingMaxAge
    ensures forall k :: k in r ==> r[k] == pending[k]
  {
    map k | k in pending && now - pending[k].timestamp <= PendingMaxAge :: pending[k]
  }

  /** The entries whose keys the pattern does not match. */
  function Unmatched(cache: map<string, CacheEntry>, matches: string -> bool): (r: map<string, CacheEntry>)
    ensures forall k :: k in r <==> k in cache && !matches(k)
    ensures forall k :: k in r ==> r[k] == cache[k]
  {
    map k | k in cache && !matches(k) :: cache[k]
  }

  /** The entry map the constructor builds from a persisted snapshot. */
  function Restored(stored: Option<map<string, CacheEntry>>, now: int): (r: map<string, CacheEntry>)
    ensures stored.None? ==> r == map[]
    ensures forall k :: k in r <==> stored.Some? && k in stored.value && Restorable(stored.value[k], now)
    ensures forall k :: k in r ==> r[k] == stored.value[k]
  {
    match stored
    case None => map[]
    case Some(m) => map k | k in m && Restorable(m[k], now) :: m[k]
  }

  /**
   * `snap` is a snapshot `saveToStorage` may write for `cache`: entries of
   * `cache`, as many as the limit allows, and none of the entries left out
   * is newer than an entry kept.
   */
  predicate IsNewestSnapshot(snap: map<string, CacheEntry>, cache: map<string, CacheEntry>) {
    && (forall k :: k in snap ==> k in cache && snap[k] == cache[k])
    && |snap| == (if |cache| < SnapshotLimit then |cache| else SnapshotLimit)
    && (forall k, j :: k in snap && j in cache && j !in snap ==> cache[j].timestamp <= snap[k].timestamp)
  }

  /** A key of `m` with the largest timestamp. */
  method NewestKey(m: map<string, CacheEntry>) returns (k: string)
    requires m != map[]
    ensures k in m
    ensures forall j :: j in m ==> m[j].timestamp <= m[k].timestamp
  {
    var ks := m.Keys;
    k :| k in ks;
    ks := ks - {k};
    while ks != {}
      invariant ks <= m.Keys && k in m
      invariant forall j :: j in m && j !in ks ==> m[j].timestamp <= m[k].timestamp
      decreases ks
    {
      var j :| j in ks;
      if m[j].timestamp > m[k].timestamp {
        k := j;
      }
      ks := ks - {j};
    }
  }

  /** The snapshot of `saveToStorage`: entries sorted newest first, the first 50 kept. */
  method SelectNewest(cache: map<string, CacheEntry>) returns (snap: map<string, CacheEntry>)
    ensures IsNewestSnapshot(snap, cache)
  {
    snap := map[];
    var rest := cache;
    while |snap| < SnapshotLimit && rest != map[]
      invariant forall k :: k in snap ==> k in cache && snap[k] == cache[k] && k !in rest
      invariant forall k :: k in rest ==> k in cache && rest[k] == cache[k]
      invariant forall k :: k in cache ==> k in snap || k in rest
      invariant |snap| + |rest| == |cache|
      invariant |snap| <= SnapshotLimit
      invariant forall k, j :: k in snap && j in rest ==> rest[j].timestamp <= snap[k].timestamp
      decreases |rest|
    {
      var k := NewestKey(rest);
      snap := snap[k := rest[k]];
      rest := rest - {k};
    }
    assert rest == map[] ==> |rest| == 0;
  }

  /** `loadFromStorage`: copies each stored entry that is still fresh under the strict test. */
  method LoadFromStorage(stored: Option<map<string, CacheEntry>>, now: int) returns (loaded: map<string, CacheEntry>)
    ensures loaded == Restored(stored, now)
  {
    loaded := map[];
    if stored.None? {
      return;
    }
    var data := stored.value;
    var ks := data.Keys;
    while ks != {}
      invariant ks <= data.Keys
      invariant forall k :: k in loaded <==> k in data && k !in ks && Restorable(data[k], now)
      invariant forall k :: k in loaded ==> loaded[k] == data[k]
      decreases ks
    {
      var k :| k in ks;
      if now - data[k].timestamp < data[k].ttl {
        loaded := loaded[k := data[k]];
      }
      ks := ks - {k};
    }
    assert loaded.Keys == Restored(stored, now).Keys;
  }

  /**
   * `ApiCache`. `stored` is the storage slot of the persisted snapshot
   * (None when the slot is empty); the periodic sweep is the `Cleanup` call.
   */
  class ApiCache {
    var cache: map<string, CacheEntry>
    var pendingRequests: map<string, PendingRequest>
    var stored: Option<map<string, CacheEntry>>

    /** A cache started at time `now` over the storage slot `slot`. */
    constructor (slot: Option<map<string, CacheEntry>>, now: int)
      ensures cache == Restored(slot, now)
      ensures pendingRequests == map[] && stored == slot
    {
      var loaded := LoadFromStorage(slot, now);
      cache := loaded;
      pendingRequests := map[];
      stored := slot;
    }

    /** `get`: the live entry's data; an expired entry is deleted (the snapshot is not rewritten). */
    method Get(key: string, now: int) returns (r: Option<Json>)
      modifies this
      ensures r == Lookup(old(cache), key, now)
      ensures cache == AfterLookup(old(cache), key, now)
      ensures pendingRequests == old(pendingRequests) && stored == old(stored)
    {
      if key !in cache {
        return None;
      }
      var entry := cache[key];
      if now - entry.timestamp > entry.ttl {
        cache := cache - {key};
        return None;
      }
      return Some(entry.data);
    }

    /** `saveToStorage`: writes the newest entries to the storage slot. */
    method SaveToStorage()
      modifies this
      ensures stored.Some? && IsNewestSnapshot(stored.value, cache)
      ensures cache == old(cache) && pendingRequests == old(pendingRequests)
    {
      var snap := SelectNewest(cache);
      stored := Some(snap);
    }

    /** `set`: overwrites the entry with the current time and the given or default TTL, then persists. */
    method Set(key: string, data: Json, ttl: Option<int>, now: int)
      modifies this
      ensures cache == old(cache)[key := CacheEntry(data, now, ttl.GetOr(DefaultTtl))]
      ensures stored.Some? && IsNewestSnapshot(stored.value, cache)
      ensures pendingRequests == old(pendingRequests)
    {
      cache := cache[key := CacheEntry(data, now, ttl.GetOr(DefaultTtl))];
      SaveToStorage();
    }

    method HasPendingRequest(key: string) returns (b: bool)
      ensures b <==> key in pendingRequests
    {
      b := key in pendingRequests;
    }

    method GetPendingRequest(key: string) returns (p: Option<nat>)
      ensures p.Some? <==> key in pendingRequests
      ensures p.Some? ==> p.value == pendingRequests[key].promise
    {
      if key in pendingRequests {
        p := Some(pendingRequests[key].promise);
      } else {
        p := None;
      }
    }

    /** `setPendingRequest`: registers (or replaces) the in-flight request for `key`. */
    method SetPendingRequest(key: string, promise: nat, now: int)
      modifies this
      ensures pendingRequests == old(pendingRequests)[key := PendingRequest(promise, now)]
      ensures cache == old(cache) && stored == old(stored)
    {
      pendingRequests := pendingRequests[key := PendingRequest(promise, now)];
    }

    /**
     * The `finally` handler of a registered promise: deletes the key, even
     * when a later request has replaced the entry in the meantime.
     */
    method Settle(key: string)
      modifies this
      ensures pendingRequests == old(pendingRequests) - {key}
      ensures cache == old(cache) && stored == old(stored)
    {
      pendingRequests := pendingRequests - {key};
    }

    /** `invalidate`: deletes one entry and persists. */
    method Invalidate(key: string)
      modifies this
      ensures cache == old(cache) - {key}
      ensures stored.Some? && IsNewestSnapshot(stored.value, cache)
      ensures pendingRequests == old(pendingRequests)
    {
      cache := cache - {key};
      SaveToStorage();
    }

    /** `invalidatePattern`: deletes every entry whose key the pattern matches, then persists. */
    method InvalidatePattern(matches: string -> bool)
      modifies this
      ensures cache == Unmatched(old(cache), matches)
      ensures stored.Some? && IsNewestSnapshot(stored.value, cache)
      ensures pendingRequests == old(pendingRequests)
    {
      var keys := cache.Keys;
      while keys != {}
        invariant keys <= old(cache).Keys
        invariant forall k :: k in cache <==> k in old(cache) && (k in keys || !matches(k))
        invariant forall k :: k in cache ==> cache[k] == old(cache)[k]
        invariant pendingRequests == old(pendingRequests)
        decreases keys
      {
        var k :| k in keys;
        if matches(k) {
          cache := cache - {k};
        }
        keys := keys - {k};
      }
      assert cache.Keys == Unmatched(old(cache), matches).Keys;
      SaveToStorage();
    }

    /** `clear`: empties both maps and removes the persisted snapshot. */
    method Clear()
      modifies this
      ensures cache == map[] && pendingRequests == map[] && stored == None
    {
      cache := map[];
      pendingRequests := map[];
      stored := None;
    }

    /** `cleanup`: the periodic sweep of expired entries and of stale in-flight requests. */
    method Cleanup(now: int)
      modifies this
      ensures cache == Swept(old(cache), now)
      ensures pendingRequests == SweptPending(old(pendingRequests), now)
      ensures stored == old(stored)
    {
      var keys := cache.Keys;
      while keys != {}
        invariant keys <= old(cache).Keys
        invariant forall k :: k in cache <==> k in old(cache) && (k in keys || !Expired(old(cache)[k], now))
        invariant forall k :: k in cache ==> cache[k] == old(cache)[k]
        invariant pendingRequests == old(pendingRequests) && stored == old(stored)
        decreases keys
      {
        var k :| k in keys;
        if now - cache[k].timestamp > cache[k].ttl {
          cache := cache - {k};
        }
        keys := keys - {k};
      }
      assert cache.Keys == Swept(old(cache), now).Keys;
      var pkeys := pendingRequests.Keys;
      while pkeys != {}
        invariant pkeys <= old(pendingRequests).Keys
        invariant forall k :: k in pendingRequests <==>
          k in old(pendingRequests) && (k in pkeys || now - old(pendingRequests)[k].timestamp <= PendingMaxAge)
        invariant forall k :: k in pendingRequests ==> pendingRequests[k] == old(pendingRequests)[k]
        invariant cache == Swept(old(cache), now) && stored == old(stored)
        decreases pkeys
      {
        var k :| k in pkeys;
        if now - pendingRequests[k].timestamp > PendingMaxAge {
          pendingRequests := pendingRequests - {k};
        }
        pkeys := pkeys - {k};
      }
      assert pendingRequests.Keys == SweptPending(old(pendingRequests), now).Keys;
    }
  }

  // ---------------------------------------------------------------------------
  // Properties of the entry map

  /** A sweep is invisible to `get` at the same time: it only drops what `get` would not return. */
  lemma SweepKeepsLookups(cache: map<string, CacheEntry>, key: string, now: int)
    ensures Lookup(Swept(cache, now), key, now) == Lookup(cache, key, now)
  {
  }

  /** `set` followed by `get` at the same time returns the data, unless the TTL given is negative. */
  lemma SetThenGet(cache: map<string, CacheEntry>, key: string, data: Json, ttl: Option<int>, now: int)
    requires ttl.GetOr(DefaultTtl) >= 0
    ensures Lookup(cache[key := CacheEntry(data, now, ttl.GetOr(DefaultTtl))], key, now) == Some(data)
  {
  }

  /**
   * An entry with exactly its TTL elapsed is still served by `get`, but a
   * cache started from a snapshot holding it at that moment drops it.
   */
  lemma ExactTtlBoundary(key: string, e: CacheEntry, now: int)
    requires now - e.timestamp == e.ttl
    ensures Lookup(map[key := e], key, now) == Some(e.data)
    ensures key !in Restored(Some(map[key := e]), now)
  {
  }

  /** Every entry a restarted cache holds is one `get` would still serve at that moment. */
  lemma RestoredEntriesAreLive(stored: map<string, CacheEntry>, key: string, now: int)
    requires key in Restored(Some(stored), now)
    ensures Lookup(Restored(Some(stored), now), key, now) == Some(stored[key].data)
  {
  }

  /** The snapshot never exceeds the limit, and keeps the whole map when it fits. */
  lemma {:induction false} SnapshotBounded(snap: map<string, CacheEntry>, cache: map<string, CacheEntry>)
    requires IsNewestSnapshot(snap, cache)
    ensures |snap| <= SnapshotLimit
    ensures |cache| <= SnapshotLimit ==> snap == cache
  {
    if |cache| <= SnapshotLimit {
      assert snap.Keys <= cache.Keys;
      assert |snap.Keys| == |cache.Keys|;
      SubsetOfSameSize(snap.Keys, cache.Keys);
    }
  }

  lemma {:induction false} SubsetOfSameSize<T>(a: set<T>, b: set<T>)
    requires a <= b && |a| == |b|
    ensures a == b
  {
    if a != b {
      var x :| x in b && x !in a;
      assert a <= b - {x};
      SubsetCard(a, b - {x});
    }
  }

  lemma {:induction false} SubsetCard<T>(a: set<T>, b: set<T>)
    requires a <= b
    ensures |a| <= |b|
    decreases |b|
  {
    if a != {} {
      var x :| x in a;
      SubsetCard(a - {x}, b - {x});
    }
  }

  // ---------------------------------------------------------------------------
  // Keys and TTLs

  /**
   * A request body (`BodyInit`): a string, or an object without enumerable
   * own properties (FormData, URLSearchParams, Blob, ArrayBuffer, DataView,
   * a stream), which is always truthy and which JSON.stringify renders as
   * `{}`. Typed arrays, which stringify to their indexed elements, are not
   * modelled.
   */
  datatype RequestBody = TextBody(text: string) | ObjectBody

  /** The options `cachedFetch` reads: method, body, TTL and the skip flag. */
  datatype FetchOptions = FetchOptions(httpMethod: Option<string>, body: Option<RequestBody>, ttl: Option<int>, skipCache: Option<bool>)

  /** `options?.body` is truthy: a non-empty string or any body object. */
  predicate HasBody(options: Option<FetchOptions>) {
    options.Some? && options.value.body.Some?
    && (options.value.body.value.ObjectBody? || options.value.body.value.text != "")
  }

  /** `JSON.stringify(body)`. */
  function BodyJson(body: RequestBody): (r: string)
    ensures body.TextBody? ==> r == Quote(body.text)
    ensures body.ObjectBody? ==> r == "{}"
  {
    match body
    case TextBody(text) => Quote(text)
    case ObjectBody => "{}"
  }

  /** `generateKey`: the URL, followed by `:` and the JSON text of the body when there is one. */
  function GenerateKey(url: string, options: Option<FetchOptions>): (key: string)
    ensures !HasBody(options) ==> key == url
    ensures HasBody(options) ==> url < key && key[|url|] == ':' && key[|url| + 1..] == BodyJson(options.value.body.value)
    ensures HasBody(options) && options.value.body.value.ObjectBody? ==> key == url + ":{}"
  {
    if HasBody(options) then url + ":" + BodyJson(options.value.body.value) else url
  }

  /**
   * The same URL with different string bodies gives different keys, a
   * string body never shares its key with a body object, and a body always
   * changes the key.
   */
  lemma {:induction false} KeysSeparateBodies(url: string, a: Option<FetchOptions>, b: Option<FetchOptions>)
    requires HasBody(a) && HasBody(b) && a.value.body != b.value.body
    requires a.value.body.value.TextBody?
    ensures GenerateKey(url, a) != GenerateKey(url, b)
    ensures GenerateKey(url, a) != GenerateKey(url, None)
  {
    var ka, kb := GenerateKey(url, a), GenerateKey(url, b);
    if ka == kb {
      assert ka[|url| + 1..] == kb[|url| + 1..];
      if b.value.body.value.TextBody? {
        QuoteInjective(a.value.body.value.text, b.value.body.value.text);
      }
      assert false;
    }
  }

  /** `getRecommendedTtl`: the first rule whose word occurs in the lower-cased URL decides. */
  function RecommendedTtl(url: string): (r: int)
    ensures var u := ToLower(url);
      && (r == 15000 <==> Contains(u, "coinbase") || Contains(u, "crypto"))
      && (r == 60000 <==> !Contains(u, "coinbase") && !Contains(u, "crypto") && !Contains(u, "alphavantage")
                          && !Contains(u, "stock") && (Contains(u, "exchangerate") || Contains(u, "forex")))
      && (r == 300000 <==> !Contains(u, "coinbase") && !Contains(u, "crypto") && !Contains(u, "alphavantage")
                           && !Contains(u, "stock") && !Contains(u, "exchangerate") && !Contains(u, "forex")
                           && (Contains(u, "static") || Contains(u, "config")))
      && (r == 15000 || r == 30000 || r == 60000 || r == 300000)
  {
    var u := ToLower(url);
    if Contains(u, "coinbase") || Contains(u, "crypto") then 15000
    else if Contains(u, "alphavantage") || Contains(u, "stock") then 30000
    else if Contains(u, "exchangerate") || Contains(u, "forex") then 60000
    else if Contains(u, "static") || Contains(u, "config") then 300000
    else 30000
  }

  lemma {:induction false} ToLowerIdempotent(s: string)
    ensures ToLower(ToLower(s)) == ToLower(s)
  {
    var t := ToLower(s);
    assert forall i :: 0 <= i < |s| ==> LowerChar(t[i]) == t[i];
  }

  /** The TTL rules ignore case: a URL and its lower-case form get the same TTL. */
  lemma RecommendedTtlIgnoresCase(url: string)
    ensures RecommendedTtl(ToLower(url)) == RecommendedTtl(url)
  {
    ToLowerIdempotent(url);
  }

  // ---------------------------------------------------------------------------
  // `cachedFetch`

  /** `!options?.method || options.method === 'GET'`. */
  predicate IsReadRequest(options: Option<FetchOptions>) {
    options.None? || options.value.httpMethod.None? || options.value.httpMethod == Some("")
    || options.value.httpMethod == Some("GET")
  }

  predicate SkipsCache(options: Option<FetchOptions>) {
    options.Some? && options.value.skipCache == Some(true)
  }

  /** `options?.ttl ?? 30000`. */
  function FetchTtl(options: Option<FetchOptions>): int {
    if options.Some? && options.value.ttl.Some? then options.value.ttl.value else DefaultTtl
  }

  /**
   * The first half of `cachedFetch`: serve from the cache, wait for the
   * in-flight request, or start a request — registering it as in flight
   * unless the cache is skipped, and storing its result only for reads.
   */
  datatype FetchStep =
    | ServeCached(data: Json)
    | JoinPending(promise: nat)
    | StartFetch(registered: bool, stores: bool)

  /** The decision `cachedFetch` takes for `key` given the two maps at time `now`. */
  function Decide(cache: map<string, CacheEntry>, pending: map<string, PendingRequest>,
                  options: Option<FetchOptions>, key: string, now: int): (r: FetchStep)
    ensures r.ServeCached? <==> IsReadRequest(options) && !SkipsCache(options)
                                && Lookup(cache, key, now).Some? && Lookup(cache, key, now) != Some(JNull)
    ensures r.ServeCached? ==> Lookup(cache, key, now) == Some(r.data)
    ensures r.JoinPending? <==> IsReadRequest(options) && !SkipsCache(options) && key in pending
                                && (Lookup(cache, key, now).None? || Lookup(cache, key, now) == Some(JNull))
    ensures r.JoinPending? ==> r.promise == pending[key].promise
    ensures r.StartFetch? ==> r.registered == !SkipsCache(options) && r.stores == (IsReadRequest(options) && !SkipsCache(options))
  {
    var consult := IsReadRequest(options) && !SkipsCache(options);
    var cached := Lookup(cache, key, now);
    if consult && cached.Some? && cached.value != JNull then ServeCached(cached.value)
    else if consult && key in pending then JoinPending(pending[key].promise)
    else StartFetch(!SkipsCache(options), consult)
  }

  /** A non-read request (or one skipping the cache) never reads the cache or joins a request. */
  lemma WritesAlwaysFetch(cache: map<string, CacheEntry>, pending: map<string, PendingRequest>,
                          options: Option<FetchOptions>, key: string, now: int)
    requires !IsReadRequest(options) || SkipsCache(options)
    ensures Decide(cache, pending, options, key, now).StartFetch?
    ensures Decide(cache, pending, options, key, now).registered <==> !SkipsCache(options)
  {
  }

  /**
   * `cachedFetch` up to the request: computes the key, consults the cache
   * (which deletes an expired entry) and the in-flight map, and registers
   * `promise` — the request about to start — unless the cache is skipped.
   */
  method BeginFetch(c: ApiCache, url: string, options: Option<FetchOptions>, now: int, promise: nat)
    returns (key: string, step: FetchStep)
    modifies c
    ensures key == GenerateKey(url, options)
    ensures step == Decide(old(c.cache), old(c.pendingRequests), options, key, now)
    ensures c.cache == (if IsReadRequest(options) && !SkipsCache(options) then AfterLookup(old(c.cache), key, now) else old(c.cache))
    ensures c.pendingRequests == (if step.StartFetch? && step.registered
                                  then old(c.pendingRequests)[key := PendingRequest(promise, now)]
                                  else old(c.pendingRequests))
    ensures c.stored == old(c.stored)
  {
    key := GenerateKey(url, options);
    var skip := SkipsCache(options);
    if !skip && IsReadRequest(options) {
      var cached := c.Get(key, now);
      if cached.Some? && cached.value != JNull {
        return key, ServeCached(cached.value);
      }
      var joined := c.GetPendingRequest(key);
      if joined.Some? {
        return key, JoinPending(joined.value);
      }
    }
    if !skip {
      c.SetPendingRequest(key, promise, now);
    }
    step := StartFetch(!skip, !skip && IsReadRequest(options));
  }

  /** What `fetch` gave: a parsed body, a non-OK status, or a thrown error (with its message, if an Error). */
  datatype Response = Ok(body: Json) | HttpError(status: nat) | Failed(message: Option<string>)

  /** The promise result `{ data, error }`; JSON null stands for `data: null`. */
  datatype FetchOutcome = FetchOutcome(data: Json, error: Option<string>)

  /** The value `cachedFetch` resolves to. */
  datatype FetchResult = FetchResult(data: Json, fromCache: bool, error: Option<string>)

  /** The body of the request promise: the data, or `HTTP <status>`, or the error's message. */
  function OutcomeOf(response: Response): (r: FetchOutcome)
    ensures response.Ok? <==> r.error.None?
    ensures response.Ok? ==> r.data == response.body
    ensures !response.Ok? ==> r.data == JNull
    ensures response.HttpError? ==> r.error == Some("HTTP " + NatToString(response.status))
    ensures response.Failed? ==> r.error == Some(response.message.GetOr("Network error"))
  {
    match response
    case Ok(body) => FetchOutcome(body, None)
    case HttpError(status) => FetchOutcome(JNull, Some("HTTP " + NatToString(status)))
    case Failed(message) => FetchOutcome(JNull, Some(message.GetOr("Network error")))
  }

  /**
   * The request promise running to its end: a successful read is stored
   * with the requested TTL; then the promise settles, which removes the
   * in-flight registration for the key if the request registered one.
   */
  method FinishFetch(c: ApiCache, key: string, options: Option<FetchOptions>, step: FetchStep,
                     response: Response, now: int) returns (result: FetchResult)
    requires step.StartFetch?
    modifies c
    ensures result == FetchResult(OutcomeOf(response).data, false, OutcomeOf(response).error)
    ensures c.cache == (if step.stores && response.Ok?
                        then old(c.cache)[key := CacheEntry(response.body, now, FetchTtl(options))]
                        else old(c.cache))
    ensures c.pendingRequests == (if step.registered then old(c.pendingRequests) - {key} else old(c.pendingRequests))
    ensures step.stores && response.Ok? ==> c.stored.Some? && IsNewestSnapshot(c.stored.value, c.cache)
    ensures !(step.stores && response.Ok?) ==> c.stored == old(c.stored)
  {
    var outcome := OutcomeOf(response);
    if step.stores && response.Ok? {
      c.Set(key, response.body, Some(FetchTtl(options)), now);
    }
    if step.registered {
      c.Settle(key);
    }
    result := FetchResult(outcome.data, false, outcome.error);
  }

  /** A caller that joined an in-flight request gets that request's outcome, marked as from the cache. */
  function JoinedResult(outcome: FetchOutcome): (r: FetchResult)
    ensures r.fromCache && r.data == outcome.data && r.error == outcome.error
  {
    FetchResult(outcome.data, true, outcome.error)
  }

  /**
   * Two identical reads in a row while the first is in flight: the first
   * starts a request and registers it, the second joins that request
   * instead of starting another.
   */
  method DeduplicatedReads(url: string, now: int) returns (first: FetchStep, second: FetchStep)
    ensures first == StartFetch(true, true)
    ensures second == JoinPending(1)
  {
    var c := new ApiCache(None, now);
    var key;
    key, first := BeginFetch(c, url, None, now, 1);
    key, second := BeginFetch(c, url, None, now, 2);
  }

  /**
   * A successful read served again: after the first request stored its
   * result and settled, the same read within the TTL is a cache hit.
   */
  method ReadAfterStore(url: string, body: Json, now: int) returns (step: FetchStep)
    requires body != JNull
    ensures step == ServeCached(body)
  {
    var c := new ApiCache(None, now);
    var key, first := BeginFetch(c, url, None, now, 1);
    var result := FinishFetch(c, key, None, first, Ok(body), now);
    key, step := BeginFetch(c, url, None, now + DefaultTtl, 2);
  }
}
