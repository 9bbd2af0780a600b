# FinBoard core in Dafny

FinBoard is a browser dashboard for financial widgets. Each widget polls an HTTP API or listens on a
WebSocket and shows selected fields of the JSON it receives. This project models the non-UI core of
that dashboard and proves properties about it:

- **Request cache** (`cache.dfy`, module `CacheService`). `ApiCache` is a class holding the entry map,
  the map of in-flight requests and the `localStorage` slot. It models TTL lookup with delete-on-expiry,
  the sweep, invalidation, and the bounded snapshot with its restore. It also models the request key,
  the recommended TTL, and the `cachedFetch` decision: serve cached, join pending, or start a request.
  A request is split into `BeginFetch` and `FinishFetch`; the promise settling is the `Settle` step.
- **JSON adapters** (`adapters.dfy`, module `ApiAdapters`; `api_utils.dfy`, module `ApiUtils`).
  These cover API format detection, quote and time-series normalisation, dot-path lookup, field
  extraction by both extractors, and the result mapping of `fetchWidgetData`. JSON is a datatype whose
  objects are ordered member lists (`json.dfy`, module `JsonValue`), so `Object.entries` order is
  kept. JavaScript property access on arrays and strings, truthiness, `typeof`, `||` and `??` are
  written out there.
- **Widget store** (`dashboard.dfy`, modules `Widgets` and `DashboardStore`). `Store` is a class with
  the widget sequence, the hydration flag and the persisted slot. Every action is a method proved equal
  to a function on the sequence. Lemmas prove permutation, pinned-prefix, id-uniqueness and
  persistence round-trip facts about those functions.
- **WebSocket manager** (`websocket.dfy`, module `WebSocketService`). `WebSocketManager` is a class
  with the connection and callback maps. Each socket is a `Connection` object, because the socket's
  handlers close over that object rather than the map entry. Socket events and timer firing are
  methods. What the manager tells the callbacks is appended to a log.
- **Helpers** (`helpers.dfy`, module `Helpers`): `clamp` and `getChangeColor` over reals.
- `text.dfy` holds string helpers: substring search, `split('.')`/`join`, the `YYYY-MM-DD` prefix
  test, lower-casing of ASCII letters, decimal indices and `JSON.stringify` quoting of strings with its inverse.

Environment inputs are parameters:
- the clock (`now`);
- fresh widget ids and promise identities;
- `new Date(..).getTime()` (`dateOf`);
- the `RegExp` of `invalidatePattern` (`matches`);
- whether the `WebSocket` constructor throws or `socket.send` succeeds;
- the result of `JSON.parse` on an incoming message;
- the HTTP response (`Response`).

Behaviours of the code that the model keeps on purpose:

- `get` keeps an entry whose age is exactly its TTL, while `loadFromStorage` drops it
  (`CacheService.ExactTtlBoundary`).
- `cachedFetch` registers a pending request for every request without `skipCache`, POST included, but
  looks up the cache and pending map only for GET (`CacheService.Decide`, `CacheService.WritesAlwaysFetch`).
  A cached `null` is treated as a miss.
- `detectApiFormat` throws on `{"data": null}`, because `typeof null === 'object'` passes its guard.
  The model returns `Threw` and `ExtractTimeSeries` propagates it.
- An array whose first element is an empty object yields no fields at all.
- `fetchWidgetData` reports success when the error message is the empty string, because it tests the
  error for truthiness (`ApiUtils.FailureReported`).
- The reconnect timer only checks that callbacks are registered for the widget. A close event from a
  socket that a later `connect` replaced still reconnects, with the old URL, and evicts the new
  connection (`WebSocketService.StaleCloseReconnectsOldUrl`).
- `disconnectAll` walks the connection map only. The callbacks of a widget whose socket constructor
  threw stay registered.

The two field extractors differ:
- `extractFields` (apiUtils) falls back to the path `root`, keeps arrays as they are, samples
  objects and null as 50 characters of JSON, and recurses into every object.
- `extractFieldsWithTypes` (apiAdapters) falls back to `data`, samples arrays, objects and null as 100
  characters of JSON, tags series keys `timeseries` and does not descend into them.
- `ApiUtils.ExtractorsAgreeOnPaths` proves the two produce the same paths when no key looks like a
  series key.

`getValueType` is duplicated in `src/utils/apiAdapters.ts:281-286` and `src/services/api/apiUtils.ts:82-86`.
Both are modelled by `JsonValue.TypeName`.

## Model

| member | source | states |
|---|---|---|
| JsonValue.TypeName | src/services/api/apiUtils.ts:82-86 | `'null'` exactly for null, `'array'` exactly for arrays, `'object'` exactly for objects; otherwise the `typeof` name |
| JsonValue.Or | src/utils/apiAdapters.ts:86-95 | `a \|\| b`: the left operand when truthy, otherwise the right |
| JsonValue.MemberValue | src/utils/apiAdapters.ts:232 | a member is found iff some member has the key, and the value found belongs to a member with that key |
| JsonValue.MemberValueOfDistinct | src/utils/apiAdapters.ts:232 | when keys are distinct, as in every parsed object, reading a member's key gives that member's value |
| JsonValue.Entries | src/services/api/apiUtils.ts:60 | `Object.entries`: an object's members in order; for an array, each element keyed by its decimal index; for a string, each character as a one-character string keyed by its index; none for booleans and numbers |
| JsonValue.Keys | src/utils/apiAdapters.ts:45 | `Object.keys` lists the keys of `Object.entries`, in order |
| JsonValue.KeysReadable | src/utils/apiAdapters.ts:45-60 | every listed key can be read back as a property; for arrays and strings, and for objects with distinct keys, it gives the value `Object.entries` pairs with it |
| JsonValue.WalkAppend | src/utils/apiAdapters.ts:229-233 | walking a path in two pieces is walking it at once |
| JsonValue.WalkPastScalar | src/utils/apiAdapters.ts:230-231 | a walk that meets null or a scalar with segments left yields undefined |
| JsonValue.ChildPathExtends | src/utils/apiAdapters.ts:262 | under a non-empty prefix a child's path strictly extends the prefix |
| JsonValue.MarkArray | src/utils/apiAdapters.ts:248 | every descriptor kept, in order, with `isArray` set |
| Text.ContainsOccurs | src/utils/apiAdapters.ts:51 | `includes` holds iff the needle occurs at some position |
| Text.ToLower | src/services/cacheService.ts:228 | `toLowerCase` on ASCII: `A`-`Z` become `a`-`z`, every other character is kept |
| Text.Split | src/utils/apiAdapters.ts:224 | `split('.')`: at least one part, no part holds the separator, joining the parts gives the string back |
| Text.SplitJoin | src/utils/apiAdapters.ts:224 | splitting the join of separator-free parts gives the parts back |
| Text.NatToStringParses | src/services/cacheService.ts:201 | a decimal index printed by the model parses back to the same number |
| Text.UnescapeEscape | src/services/cacheService.ts:109 | the escaping of `JSON.stringify` on a string is undone by unescaping |
| Text.QuoteInjective | src/services/cacheService.ts:109 | different strings stringify to different JSON strings |
| ApiAdapters.DetectApiFormat | src/utils/apiAdapters.ts:41-77 | throws exactly on a non-null object whose `data` is null and that no earlier rule claims; otherwise returns the first rule of the precedence chain that matches, `generic` when none does |
| ApiAdapters.GlobalQuoteWins | src/utils/apiAdapters.ts:47-49 | a `Global Quote` key beats every other rule |
| ApiAdapters.TimeSeriesDetection | src/utils/apiAdapters.ts:70-76 | `time_series` iff no earlier rule matches and some top-level key has a date prefix |
| ApiAdapters.NormalizeAlphaVantageQuote | src/utils/apiAdapters.ts:79-100 | null iff the input is null, `Global Quote` is missing or falsy, or the change percent read with its `'0'` fallback is not a string (its `.replace` throws and the `catch` returns null); otherwise the change percent is a string |
| ApiAdapters.SortPoints | src/utils/apiAdapters.ts:124 | the sort result is ascending by timestamp and a permutation of its input |
| ApiAdapters.InsertPointSorted | src/utils/apiAdapters.ts:124 | inserting a point into a list sorted by timestamp keeps it sorted |
| ApiAdapters.InsertPointPermutes | src/utils/apiAdapters.ts:124 | inserting adds the point and loses none of the others |
| ApiAdapters.FirstSeriesKeyIsFirst | src/utils/apiAdapters.ts:106-108 | `.find` takes the earliest key that contains `Time Series` or starts with a date; none is found iff no key qualifies |
| ApiAdapters.AlphaVantageRows | src/utils/apiAdapters.ts:114-123 | one point per series entry, in order, each the row that entry gives; no result (a throw) iff some row is null |
| ApiAdapters.NormalizeAlphaVantageTimeSeries | src/utils/apiAdapters.ts:102-128 | the rows of the first series key, sorted ascending by timestamp and a permutation of them; `[]` for null input, no series key, a missing or null series, or a null row |
| ApiAdapters.GenericPoint | src/utils/apiAdapters.ts:196-216 | a point exists iff the key has a date prefix and the value is an object or a number; a number gives open = high = low = close = value |
| ApiAdapters.GenericPointsExactly | src/utils/apiAdapters.ts:194-218 | every collected point comes from an entry that gives it, and every entry that gives a point has it collected |
| ApiAdapters.GenericTimeSeries | src/utils/apiAdapters.ts:188-221 | empty for a non-object; otherwise sorted and a permutation of the kept points |
| ApiAdapters.NormalizeGenericTimeSeries | src/utils/apiAdapters.ts:188-221 | the loop computes `GenericTimeSeries` |
| ApiAdapters.GetNestedValue | src/utils/apiAdapters.ts:223-236 | the loop computes `NestedValue`, the walk over the path's segments |
| ApiAdapters.ExtractTimeSeries | src/utils/apiAdapters.ts:164-186 | `[]` for falsy input; throws exactly when format detection throws; intraday and daily go to the Alpha Vantage normaliser, `time_series` to the generic one, any other format to the generic one on the value at `fieldPath` when that path is non-empty and resolves to a truthy object, else `[]`; any result is sorted |
| ApiAdapters.MemberField | src/utils/apiAdapters.ts:262-271 | the path is the child path; series keys get `timeseries`, other keys `getValueType`; `isArray` iff the value is an array; objects, arrays and null get a 100-character stringified sample |
| ApiAdapters.ExtractFieldsWithTypes | src/utils/apiAdapters.ts:238-279 | the loop with its recursion computes `FieldsWithTypes` |
| ApiAdapters.ExtractMemberFields | src/utils/apiAdapters.ts:261-276 | the member loop computes the descriptor of each member followed by its nested descriptors |
| ApiAdapters.PushMember | src/utils/apiAdapters.ts:265-274 | one turn of the loop extends what earlier turns pushed by exactly the next member's descriptors |
| ApiAdapters.MemberChunk | src/utils/apiAdapters.ts:265-274 | a member's turn pushes its own descriptor, then its value's descriptors when the value is a plain object not keyed as a series |
| ApiAdapters.FieldPathsExtendPrefix | src/utils/apiAdapters.ts:262 | under a non-empty prefix, every extracted path starts with the prefix |
| ApiAdapters.MemberPathsExtendPrefix | src/utils/apiAdapters.ts:261-276 | the same for the descriptors of an object's members |
| ApiAdapters.MemberFieldsCount | src/utils/apiAdapters.ts:261-276 | every member yields at least one descriptor |
| ApiAdapters.ArrayDescribedByFirstElement | src/utils/apiAdapters.ts:243-249 | an array of objects is described by its first element alone, every descriptor marked as an array |
| ApiAdapters.PlainArrayIsOneField | src/utils/apiAdapters.ts:242-256 | an empty array, or one not led by an object, is a single `array` descriptor at the prefix, or at `data` without one |
| ApiAdapters.SeriesMembersNotExpanded | src/utils/apiAdapters.ts:264-275 | a member whose key names a time series gives one `timeseries` descriptor and its value is not expanded |
| ApiAdapters.FormatDisplayValue | src/utils/apiAdapters.ts:288-313 | numbers go to number formatting; `-` exactly for null, undefined and the string `-`; `[n items]` for arrays; `Yes`/`No` for booleans; `{...}` for objects; other strings unchanged |
| ApiUtils.MemberDescriptor | src/services/api/apiUtils.ts:61-70 | path, `getValueType` tag and `isArray` of a member; null and objects get a 50-character stringified sample, other values the raw value |
| ApiUtils.ExtractFields | src/services/api/apiUtils.ts:36-80 | the loop with its recursion computes `Fields` |
| ApiUtils.ExtractMemberFields | src/services/api/apiUtils.ts:59-77 | the member loop computes each descriptor followed by its nested descriptors |
| ApiUtils.PushMember | src/services/api/apiUtils.ts:64-75 | one turn of the loop extends what earlier turns pushed by exactly the next member's descriptors |
| ApiUtils.MemberChunk | src/services/api/apiUtils.ts:64-75 | a member's turn pushes its own descriptor, then its value's descriptors when the value is an object |
| ApiUtils.ArrayDescribedByFirstElement | src/services/api/apiUtils.ts:42-49 | an array of objects is described by its first element alone, every descriptor marked as an array |
| ApiUtils.PlainArrayIsOneField | src/services/api/apiUtils.ts:42-56 | an empty array, or one not led by an object, is a single `array` descriptor at the prefix, or at `root` without one |
| ApiUtils.ScalarsHaveNoFields | src/services/api/apiUtils.ts:39-59 | null, undefined and scalars yield no fields |
| ApiUtils.MemberFieldsCount | src/services/api/apiUtils.ts:60-76 | every member yields at least one descriptor |
| ApiUtils.Paths | src/services/api/apiUtils.ts:60-76 | the paths of a descriptor list, in order |
| ApiUtils.PathsAppend | src/services/api/apiUtils.ts:74 | the paths of a concatenation are the concatenated paths |
| ApiUtils.PathsMarkArray | src/services/api/apiUtils.ts:47 | marking descriptors as array elements keeps their paths |
| ApiUtils.ExtractorsAgreeOnPaths | src/services/api/apiUtils.ts:36-80 | without series-like keys, `extractFields` and `extractFieldsWithTypes` produce the same paths in the same order |
| ApiUtils.ExtractorsAgreeOnMembers | src/services/api/apiUtils.ts:60-76 | the same for an object's members |
| ApiUtils.GetValueByPath | src/services/api/apiUtils.ts:88-101 | the loop computes `NestedValue`, the function `getNestedValue` computes |
| ApiUtils.PathThroughObjects | src/services/api/apiUtils.ts:88-101 | a three-segment path through nested objects reaches the leaf |
| ApiUtils.PathPastScalar | src/services/api/apiUtils.ts:95-96 | a path continuing past a non-object gives undefined |
| ApiUtils.WidgetFetchOptions | src/services/api/apiUtils.ts:111-115 | a GET without body whose TTL is the recommended TTL of the URL; it skips the cache iff the caller's `skipCache` is true |
| ApiUtils.WidgetDataOf | src/services/api/apiUtils.ts:117-129 | failure iff the error is a non-empty string; success carries the data, failure the error; `fromCache` passed through |
| ApiUtils.FailureReported | src/services/api/apiUtils.ts:117-122 | a failed response is reported as success exactly when its message is empty |
| ApiUtils.SuccessReported | src/services/api/apiUtils.ts:124-129 | an OK response is reported as success with its body |
| CacheService.Lookup | src/services/cacheService.ts:25-39 | data is returned iff the key is present and at most `ttl` ms old, and it is the stored data |
| CacheService.AfterLookup | src/services/cacheService.ts:31-34 | a lookup deletes the key exactly when its entry is expired, and changes nothing else |
| CacheService.Swept | src/services/cacheService.ts:113-119 | the sweep keeps exactly the unexpired entries, unchanged |
| CacheService.SweptPending | src/services/cacheService.ts:120-125 | the sweep keeps exactly the pending requests at most 30000 ms old |
| CacheService.Unmatched | src/services/cacheService.ts:79-87 | keeps exactly the keys the pattern does not match |
| CacheService.Restored | src/services/cacheService.ts:128-146 | an empty slot restores nothing; otherwise exactly the entries younger than their TTL are restored, unchanged |
| CacheService.NewestKey | src/services/cacheService.ts:151-154 | the key of an entry with the greatest timestamp |
| CacheService.SelectNewest | src/services/cacheService.ts:148-160 | the snapshot is at most 50 entries of the cache, none older than any entry left out |
| CacheService.LoadFromStorage | src/services/cacheService.ts:128-146 | the loop computes `Restored` |
| CacheService.ApiCache.constructor | src/services/cacheService.ts:17-23 | the cache starts with the restored entries and no pending requests |
| CacheService.ApiCache.Get | src/services/cacheService.ts:25-39 | returns `Lookup` and leaves the cache as `AfterLookup` |
| CacheService.ApiCache.SaveToStorage | src/services/cacheService.ts:148-160 | stores the newest-snapshot of the cache |
| CacheService.ApiCache.Set | src/services/cacheService.ts:41-49 | overwrites the key with timestamp `now` and TTL defaulting to 30000, then saves |
| CacheService.ApiCache.HasPendingRequest | src/services/cacheService.ts:51-53 | true iff the key is pending |
| CacheService.ApiCache.GetPendingRequest | src/services/cacheService.ts:55-62 | the pending promise of the key, if any |
| CacheService.ApiCache.SetPendingRequest | src/services/cacheService.ts:63-67 | registers the promise for the key with timestamp `now` |
| CacheService.ApiCache.Settle | src/services/cacheService.ts:69-71 | settling removes the key from the pending map, whatever promise it holds |
| CacheService.ApiCache.Invalidate | src/services/cacheService.ts:74-77 | removes only the key, then saves |
| CacheService.ApiCache.InvalidatePattern | src/services/cacheService.ts:79-87 | removes exactly the matching keys, then saves |
| CacheService.ApiCache.Clear | src/services/cacheService.ts:89-95 | empties the entries, the pending map and the stored slot |
| CacheService.ApiCache.Cleanup | src/services/cacheService.ts:113-126 | leaves exactly `Swept` and `SweptPending` |
| CacheService.SweepKeepsLookups | src/services/cacheService.ts:113-126 | the sweep changes no lookup made at the same time |
| CacheService.SetThenGet | src/services/cacheService.ts:25-49 | a get at the time of a set returns the stored data |
| CacheService.ExactTtlBoundary | src/services/cacheService.ts:31 | an entry exactly `ttl` old is served by `get` but dropped by the restore |
| CacheService.RestoredEntriesAreLive | src/services/cacheService.ts:139 | every restored entry is served by a lookup at the time of the restore |
| CacheService.SnapshotBounded | src/services/cacheService.ts:151-154 | the snapshot has at most 50 entries, and is the whole cache when it has no more |
| CacheService.GenerateKey | src/services/cacheService.ts:105-111 | the URL without a truthy body; with one, the URL, a colon and `JSON.stringify` of the body: the quoted string for a string body, `{}` for a body object without enumerable own properties (FormData, URLSearchParams, Blob, ArrayBuffer, DataView, streams) |
| CacheService.KeysSeparateBodies | src/services/cacheService.ts:105-111 | the same URL with different string bodies, or with a string body and a body object, or with and without a body, gives different keys |
| CacheService.RecommendedTtl | src/services/cacheService.ts:227-247 | the first matching rule of coinbase/crypto 15000, alphavantage/stock 30000, exchangerate/forex 60000, static/config 300000, otherwise 30000, on the lower-cased URL |
| CacheService.RecommendedTtlIgnoresCase | src/services/cacheService.ts:228 | the TTL does not depend on letter case |
| CacheService.Decide | src/services/cacheService.ts:165-225 | serve cached iff GET without skipCache and a non-null entry is live; else join pending iff GET without skipCache and a pending key; else fetch, registering pending iff not skipCache and storing iff GET without skipCache |
| CacheService.WritesAlwaysFetch | src/services/cacheService.ts:173 | a non-GET or skipCache request always fetches, and registers as pending unless skipCache |
| CacheService.BeginFetch | src/services/cacheService.ts:165-188 | computes the key and `Decide`, with the lookup's deletion and the pending registration applied to the cache |
| CacheService.OutcomeOf | src/services/cacheService.ts:190-217 | an OK response gives its body and no error; HTTP errors give `HTTP <status>`; thrown errors give their message or `Network error` |
| CacheService.FinishFetch | src/services/cacheService.ts:190-224 | stores OK GET data, settles the registered key and returns the outcome as not from cache |
| CacheService.JoinedResult | src/services/cacheService.ts:180-185 | a joined request returns the pending outcome marked as from cache |
| CacheService.DeduplicatedReads | src/services/cacheService.ts:180-185 | two GETs of one URL before the first settles: the first fetches and registers, the second joins it |
| CacheService.ReadAfterStore | src/services/cacheService.ts:174-178 | a GET after a stored non-null response is served from the cache |
| DashboardStore.PersistDropsExactlyRuntimeState | src/store/dashboardStore.ts:162 | two widgets persist alike iff they agree outside `data`, `isLoading` and `error` |
| DashboardStore.PersistRestore | src/store/dashboardStore.ts:143-167 | restoring a persisted widget and persisting it again gives it back |
| DashboardStore.RestorePersist | src/store/dashboardStore.ts:143-167 | persisting and restoring a widget drops exactly its runtime state |
| DashboardStore.PersistAll | src/store/dashboardStore.ts:162 | the persisted list is each widget's projection, in order |
| DashboardStore.ReloadKeepsConfiguration | src/store/dashboardStore.ts:143-167 | saving and hydrating keeps every widget but its runtime state, in order |
| DashboardStore.IndexWhere | src/store/dashboardStore.ts:61 | `findIndex`: the first index satisfying the test, or -1 iff none does |
| DashboardStore.FindIndex | src/store/dashboardStore.ts:61 | the loop computes `IndexWhere` |
| DashboardStore.WithoutId | src/store/dashboardStore.ts:43-48 | keeps exactly the widgets with another id |
| DashboardStore.WithoutIdAppend | src/store/dashboardStore.ts:43-48 | filtering preserves the relative order of the rest |
| DashboardStore.WithoutAbsentId | src/store/dashboardStore.ts:43-48 | removing an absent id changes nothing |
| DashboardStore.MapWhereId | src/store/dashboardStore.ts:50-57 | length and order kept; only widgets with the id change |
| DashboardStore.Patched | src/store/dashboardStore.ts:53-55 | for each of the fourteen widget properties: a patched property takes the update's value, an unpatched one keeps the widget's |
| DashboardStore.PatchLaws | src/store/dashboardStore.ts:53-55 | an empty update changes nothing; applying an update twice is applying it once |
| DashboardStore.UpdateWidgetDataEffect | src/store/dashboardStore.ts:83-89 | matching widgets get the data and time, `isLoading` false and `error` null; the others are unchanged |
| DashboardStore.SetWidgetErrorEffect | src/store/dashboardStore.ts:99-105 | matching widgets get the error and `isLoading` false; the others are unchanged |
| DashboardStore.RemoveAt | src/store/dashboardStore.ts:66 | `splice(i, 1)`: the element at `i` removed, the rest in order |
| DashboardStore.InsertAt | src/store/dashboardStore.ts:69-77 | `splice(at, 0, x)`: `x` at `at`, the rest in order |
| DashboardStore.RemoveInserted | src/store/dashboardStore.ts:129-130 | removing what was just inserted gives the list back |
| DashboardStore.UnpinSlot | src/store/dashboardStore.ts:73-77 | the first unpinned index, or the length when there is none |
| DashboardStore.TogglePinned | src/store/dashboardStore.ts:59-81 | an unknown id changes nothing; the length is kept |
| DashboardStore.TogglePinnedPins | src/store/dashboardStore.ts:68-70 | pinning moves the widget to the front with `isPinned` set, the others in order |
| DashboardStore.TogglePinnedUnpins | src/store/dashboardStore.ts:71-78 | unpinning reinserts the widget at the first unpinned slot of the rest, or at the end |
| DashboardStore.TogglePinnedPermutes | src/store/dashboardStore.ts:59-81 | the result is the input with the toggled widget replaced by its new version |
| DashboardStore.TogglePinnedKeepsIds | src/store/dashboardStore.ts:59-81 | the ids are a permutation of the old ids |
| DashboardStore.TogglePinnedKeepsPinnedFirst | src/store/dashboardStore.ts:59-81 | if pinned widgets formed a prefix, they still do |
| DashboardStore.Reordered | src/store/dashboardStore.ts:122-136 | a missing id changes nothing; the length is kept |
| DashboardStore.ReorderedMoves | src/store/dashboardStore.ts:125-131 | the element at `oldIndex` moves to `newIndex`, the others keep their order, the multiset is kept |
| DashboardStore.LoadedTemplate | src/store/dashboardStore.ts:107-120 | replace gives exactly the configs, each under its fresh id, in order; merge gives the old widgets followed by them |
| DashboardStore.AddKeepsIdsUnique | src/store/dashboardStore.ts:30-41 | appending under a fresh id keeps ids unique |
| DashboardStore.SameIdsKeepUnique | src/store/dashboardStore.ts:59-81 | reordering ids keeps them unique |
| DashboardStore.Store.SaveToStorage | src/store/dashboardStore.ts:158-167 | stores the projection of every widget |
| DashboardStore.Store.Hydrate | src/store/dashboardStore.ts:143-156 | restores the saved widgets when there are any, and marks the store hydrated |
| DashboardStore.Store.AddWidget | src/store/dashboardStore.ts:30-41 | appends the config under the fresh id, then saves |
| DashboardStore.Store.RemoveWidget | src/store/dashboardStore.ts:43-48 | leaves `WithoutId`, then saves |
| DashboardStore.Store.UpdateWidget | src/store/dashboardStore.ts:50-57 | merges the update into the matching widgets, then saves |
| DashboardStore.Store.TogglePin | src/store/dashboardStore.ts:59-81 | the splice steps compute `TogglePinned`, then it saves |
| DashboardStore.Store.UpdateWidgetData | src/store/dashboardStore.ts:83-89 | applies `WithData` to the matching widgets, without saving |
| DashboardStore.Store.SetWidgetLoading | src/store/dashboardStore.ts:91-97 | sets `isLoading` on the matching widgets, without saving |
| DashboardStore.Store.SetWidgetError | src/store/dashboardStore.ts:99-105 | applies `WithError` to the matching widgets, without saving |
| DashboardStore.Store.LoadTemplate | src/store/dashboardStore.ts:107-120 | leaves `LoadedTemplate`, then saves |
| DashboardStore.Store.ReorderWidgets | src/store/dashboardStore.ts:122-136 | the splice steps compute `Reordered`, then it saves |
| DashboardStore.Store.ClearDashboard | src/store/dashboardStore.ts:138-141 | no widgets, and an empty list saved |
| WebSocketService.Payload | src/services/websocketService.ts:52-59 | the parsed value when parsing succeeds, the raw text otherwise |
| WebSocketService.ErrorNotifications | src/services/websocketService.ts:61-65 | the `error` status change, then the forwarding to `onError` exactly when it is given |
| WebSocketService.WebSocketManager.Connect | src/services/websocketService.ts:22-27 | drops the widget's connection, registers the callbacks, and installs a fresh `connecting` connection with 0 attempts (or reports `error`) |
| WebSocketService.WebSocketManager.CreateConnection | src/services/websocketService.ts:29-83 | nothing without callbacks; otherwise `connecting` is reported and a fresh connection installed, or `error` reported when the socket constructor throws |
| WebSocketService.WebSocketManager.OnOpen | src/services/websocketService.ts:46-50 | status `connected`, attempts reset to 0, reported |
| WebSocketService.WebSocketManager.OnMessage | src/services/websocketService.ts:52-59 | every message is delivered, raw when it does not parse |
| WebSocketService.WebSocketManager.OnError | src/services/websocketService.ts:61-65 | status `error`, reported and forwarded |
| WebSocketService.WebSocketManager.OnClose | src/services/websocketService.ts:67-78 | status `disconnected`, reported; a reconnect is scheduled iff attempts < 5 |
| WebSocketService.WebSocketManager.FireReconnect | src/services/websocketService.ts:72-76 | nothing unless callbacks are registered; otherwise `connecting` reported to the current callbacks and a fresh connection to the closed one's URL with one more attempt, or `error` reported when the socket constructor throws |
| WebSocketService.WebSocketManager.Disconnect | src/services/websocketService.ts:85-92 | removes the connection and the callbacks |
| WebSocketService.WebSocketManager.GetStatus | src/services/websocketService.ts:94-97 | the connection's status, or null iff there is no connection |
| WebSocketService.WebSocketManager.Send | src/services/websocketService.ts:99-111 | true iff a connection exists, its status is `connected` and the socket accepts the data |
| WebSocketService.WebSocketManager.DisconnectAll | src/services/websocketService.ts:113-117 | no connections remain; callbacks stay only for widgets that had no connection |
| WebSocketService.ClosesUntilGivingUp | src/services/websocketService.ts:67-78 | closes without an open in between schedule exactly 5 reconnects, then nothing |
| WebSocketService.OpenResetsAttempts | src/services/websocketService.ts:46-50 | after a reconnect opens, the next close schedules again, from 0 attempts |
| WebSocketService.StaleCloseReconnectsOldUrl | src/services/websocketService.ts:67-76 | a close of a replaced socket still reconnects: it evicts the new connection, uses the old URL and the new callbacks |
| WebSocketService.DisconnectStopsReconnect | src/services/websocketService.ts:72-97 | after `disconnect` the status is null and a pending reconnect does nothing |
| Helpers.Clamp | src/utils/helpers.ts:52-54 | at most `hi`; at least `lo` when `lo <= hi`; the value itself when within bounds; `hi` when `lo > hi` |
| Helpers.ClampIdempotent | src/utils/helpers.ts:53 | clamping twice is clamping once |
| Helpers.ClampMonotone | src/utils/helpers.ts:53 | clamping preserves order |
| Helpers.ChangeColor | src/utils/helpers.ts:46-50 | the success colour iff positive, danger iff negative, secondary iff zero |
| Helpers.ChangeColorNegated | src/utils/helpers.ts:46-50 | negating a change swaps the success and danger colours |

## Left out

- Network I/O: `fetch` and `testApiUrl` are not modelled; an HTTP response is an input (`Response`), and `response.json()` failing is a `Failed` response.
- The real `WebSocket`: its events are methods the environment calls; `socket.close()` has no effect of its own beyond the later `OnClose`.
- CacheService.GenerateKey: typed-array bodies (`Uint8Array` and the like) are not modelled. `JSON.stringify` renders them as the object of their indexed elements (`{"0":7}`), so in the source they key as `url:` followed by that text, not `url:{}`.
- CacheService.ApiCache.SaveToStorage, DashboardStore.Store.SaveToStorage: the write to `localStorage` always succeeds in the model. In the source a throwing `setItem` (quota exceeded) is caught and leaves the previous slot, and without `window` (server-side rendering) saving and loading do nothing. So the stored-slot clauses of the methods that save (`Set`, `Invalidate`, `InvalidatePattern`, `AddWidget`, `RemoveWidget`, `UpdateWidget`, `TogglePin`, `LoadTemplate`, `ReorderWidgets`, `ClearDashboard`), and the slot removal of `ApiCache.Clear`, hold only in a browser whose storage accepts the write.
- Timers, promises and storage: `setTimeout`, `setInterval` and promise settlement are explicit calls; `localStorage` is a field of the class that uses it; `JSON.parse` failing on the stored cache or widgets is not modelled (the slot is an `Option` of already-parsed data).
- Floating point: `parseFloat`, `toFixed`, `toLocaleString`, the numeric branch of `formatDisplayValue` (returned as `NumberToFormat`) and the numeric fields of the quote, Coinbase and forex normalisers; quote fields stay as JSON values.
- `normalizeCoinbaseRate` and `normalizeForexRate`: not named in the modelled core; `ExtractTimeSeries` treats those formats like `generic`, as the source does.
- Dates: `new Date(key).getTime()` is the `dateOf` parameter; NaN ordering in the sort is not modelled.
- `ApiAdapters.SortPoints`: the source's `Array.prototype.sort` is stable and the model's insertion sort is too, but stability is not stated.
- `CacheService.SelectNewest`: among entries with equal timestamps the source keeps Map insertion order; the model picks any of them.
- Regular expressions: `invalidatePattern` takes a key predicate instead of a pattern string.
- `JsonValue.Prop`: the JSON model has no `undefined` and no prototype properties; of the inherited properties only `length` of arrays and strings is answered.
- `JsonValue.MemberValue`: the datatype does not force distinct member keys. On a repeated key it reads the first member, while `JSON.parse` would have kept the last; the two agree on every object `JSON.parse` produces (`MemberValueOfDistinct`).
- `Text.ToLower`: lowers ASCII letters only, not full Unicode case mapping. `toLowerCase` maps U+212A (Kelvin sign) to `k` and U+0130 to two code units, so a URL spelling a rule word with such characters matches in the source but not in the model.
- `RecommendedTtl`: inherits the ASCII-only lower-casing of `Text.ToLower`; a URL that contains a rule word only after full Unicode lower-casing (for example `stoc` followed by U+212A) gets the fallback TTL in the model where the source matches the rule.
- `WebSocketService.WebSocketManager.OnMessage`: callbacks are assumed not to throw. When `onMessage` throws on a parsed value, the source's `catch` calls it a second time with the raw text; that second delivery is not modelled.
- `WebSocketService.WebSocketManager.Send`: the text sent (`JSON.stringify` of non-strings) is not modelled, only whether it is sent.
- `WebSocketService.WebSocketManager.OnError`: the `Event` passed to `onError` and the `console.error` logging are not modelled.
- `Helpers.Clamp`: NaN and infinities are not modelled.
- UI components, templates, constants and formatters: rendering and static data.
