# go-sweet-cache: a verified model of the refresh-ahead cache

This project models the core of go-sweet-cache, a refresh-ahead cache
decorator for Go, and proves properties of that model.

A single-tier cache wraps a key/value backend store that supports
`SetWithTTL`. Every entry it writes carries two instants, both computed from
TTLs that the value provider returns:

- **fresh**: before the *actual* instant, the stored value is served and nothing else happens;
- **stale but usable**: before the *usable* instant, the stored value is served and a background refresh is scheduled;
- **expired**: anything else, including an absent entry, makes the provider run synchronously. Its reply is stored and returned.

Failures are stored too (negative caching). Updates of one key go through a
single-flight group. The repository has three versions of this cache, and
each is modelled as written:

- `lib/pkg/simple/cache.go` (module `LibSimpleCache`): entries record success as `ok`;
- `pkg/simple/cache.go` (module `PkgSimpleCache`): entries keep the provider's error, and calls return `(V, error)`;
- `lib/pkg/sweet/simple.go` (module `SweetCache`): entries have no usable instant, so any present entry past its actual instant is served stale, and only the backend's own expiry (the usable TTL) removes it.

The rest of the model:

- The two-level caches of `lib/pkg/simple/twolevel.go` (`SimpleTwoLevel`) and `lib/pkg/sweet/twolevel.go` (`SweetTwoLevel`) run a front tier whose miss provider asks the back tier first (`WithRemoteCache` of `lib/pkg/sweet/providers.go`).
- The key namespacing of `lib/pkg/sweet/keys.go` (`SweetKeys`).
- The fixed-TTL provider helpers of `lib/pkg/sweet/providers.go` (`Providers`).
- The provider helpers of `examples/otter-redis-example/cmd/main.go` (`ExampleProviders`).

How the model is built:

- **Spec functions and classes.** Each cache is specified by pure functions over a value `State(store, pending, calls)`:
  - the backend contents;
  - the set of keys with a scheduled background refresh;
  - the number of provider invocations.

  A class with the same fields implements the Go methods. Each method is proved to leave the state, and return the answer, that the functions prescribe.
- **Time.** Clock readings are parameters:
  - `now` is read before the backend lookup;
  - `later` is read after the provider returns, and the entry's instants are anchored there.
- **Providers.** A provider is a function from key to reply.
- **Background refresh.** A scheduled refresh is a key in `pending`. `RunPending` runs it to completion. A synchronous update of a key that has a refresh pending joins it: one provider call serves both. This is the sequential form of the single-flight group.

Backend stores:

- A backend store is a map from key to value and optional expiry instant:
  - a TTL of 0 never expires;
  - a negative TTL discards the write and keeps the old contents.
- A stored value of a type other than the cache's entry type reads as a miss, as the failed type assertion does.

## Model

| member | source | states |
|---|---|---|
| Backend.Get | lib/pkg/simple/cache.go:19-20 | A read finds the stored value exactly while its slot is live, and misses once the slot has expired or when the key was never written. |
| Backend.SetWithTTL | lib/pkg/simple/cache.go:28-31 | A write is accepted exactly when the TTL is not negative. A discarded write leaves the store as it was. An accepted write stores the value under the key. Every other key keeps its slot. |
| Backend.GetAfterSetWithTTL | lib/pkg/simple/cache.go:28-31 | After a write at `now` with `ttl`, a read of that key at `t` behaves as follows. With TTL 0 it sees the value forever. With a positive TTL it sees the value while `t < now + ttl` and nothing after. With a negative TTL it sees the old contents. Reads of other keys are unaffected. |
| Backend.Remove | lib/pkg/simple/cache.go:22-23 | The key is gone, and every other key keeps its slot. |
| Backend.GetAfterRemove | lib/pkg/simple/cache.go:22-23 | After `Remove`, no read finds the key. Reads of other keys are unchanged. |
| Freshness.Classify | lib/pkg/simple/cache.go:59-67 | A found entry is a hit exactly before its actual instant. It is served stale with a refresh exactly from the actual instant until before the usable one. It is a miss exactly when both instants have passed. |
| Providers.GoHalf | lib/pkg/sweet/providers.go:37-43 | Go's `d / 2` on a duration truncates toward zero. For `d >= 0` the result `h` satisfies `2h <= d < 2h + 2`. For `d < 0` it satisfies `2h - 2 < d <= 2h`. |
| Providers.GoHalfOdd | lib/pkg/sweet/providers.go:37-43 | Halving is symmetric around zero, unlike Dafny's Euclidean division. |
| Providers.FixedTTLProvider | lib/pkg/sweet/providers.go:11-30 | Each invocation passes the simple provider's value and error through. It attaches the positive TTL pair on success and the negative pair on failure. |
| Providers.SimpleFixedTTLProvider | lib/pkg/sweet/providers.go:32-44 | The value and error pass through. The usable TTL is chosen by the outcome, and the actual TTL is its truncated half. |
| Providers.HalvedWindowsOrdered | lib/pkg/sweet/providers.go:32-44 | With non-negative usable TTLs, `0 <= actual <= usable` holds. The grace window is at least as long as the fresh window. |
| Providers.HalvedWindowsReversedWhenNegative | lib/pkg/sweet/providers.go:32-44 | A usable TTL of -2 or below makes the halved actual TTL exceed the usable one. |
| LibSimpleCache.Lookup | lib/pkg/simple/cache.go:57-58 | An entry is found only if the backend holds a live value of the entry type under the key. A value of another type reads as absent. |
| LibSimpleCache.Timeline | lib/pkg/simple/cache.go:55-93 | An entry written at `later` with `0 <= actualTTL <= usableTTL` is classified by elapsed time `e`: fresh while `e < actualTTL`, stale-but-usable while `e < usableTTL`, a miss afterwards. It is the written entry while usable. |
| LibSimpleCache.NegativeUsableNotStored | lib/pkg/simple/cache.go:84-90 | An update whose usable TTL is negative leaves the backend unchanged. |
| LibSimpleCache.FreshAfterMiss | lib/pkg/simple/cache.go:55-73 | A miss returns `err == nil` from the provider. A second call within the actual TTL returns the same answer, failures included. It calls no provider and changes no state. |
| LibSimpleCache.StaleReadsShareOneRefresh | lib/pkg/simple/cache.go:62-67 | Reads in the grace window return the stored value and outcome. Two such reads schedule one refresh. Running it costs exactly one provider call and stores its reply. Running it again does nothing. |
| LibSimpleCache.RetryAfterUsable | lib/pkg/simple/cache.go:55-73 | Past the usable TTL, the provider is called again synchronously. Its reply is stored and returned. |
| LibSimpleCache.SyncMissAbsorbsRefresh | lib/pkg/simple/cache.go:75-93 | A synchronous miss makes exactly one provider call and answers any refresh pending for the key. |
| LibSimpleCache.AsyncMissThenRefresh | lib/pkg/simple/cache.go:95-120 | An asynchronous miss returns `(default, false)` and leaves the backend and call count unchanged. The refresh it schedules ends in the state the synchronous call would reach. |
| LibSimpleCache.AsyncAgreesWhenCached | lib/pkg/simple/cache.go:95-114 | On a fresh or stale entry, the asynchronous call answers and acts exactly as the synchronous one. |
| LibSimpleCache.ReadAgreesWithProvide | lib/pkg/simple/cache.go:122-132 | `Get` returns what `GetOrProvide` would serve from the cache. It misses exactly when `GetOrProvide` would call the provider. |
| LibSimpleCache.BurstServedFromCache | lib/pkg/simple/cache.go:55-69 | Any number of calls that each find a fresh or stale entry are served from the backend as it stands. There is no provider call and no write, and each answer is the entry found at its reading. The key is pending afterwards exactly when it was before or some call found it stale. |
| LibSimpleCache.FreshBurst | lib/pkg/simple/cache.go:59-61 | After a miss answered at `later`, any number of calls within the actual TTL return the provider's answer. They invoke no provider and leave the cache exactly as it was. |
| LibSimpleCache.StaleBurstOneRefresh | lib/pkg/simple/cache.go:62-67 | Any number of calls in the grace window return the old answer and leave exactly one refresh pending. Running it costs one provider call. |
| LibSimpleCache.Cache.constructor | lib/pkg/simple/cache.go:47-53 | A new cache has the given backend, no pending refresh and no calls. |
| LibSimpleCache.Cache.Serve | lib/pkg/simple/cache.go:55-69 | A fresh or stale entry is served. Only a stale one adds the key to the pending refreshes. |
| LibSimpleCache.Cache.UpdateValueFromProvider | lib/pkg/simple/cache.go:75-93 | One provider call. It stores the entry anchored at `later` with backend TTL = usable TTL, clears the key's pending refresh, and returns the provider's value and error. |
| LibSimpleCache.Cache.GetOrProvide | lib/pkg/simple/cache.go:55-73 | The answer and the new state are those of `Provide`. |
| LibSimpleCache.Cache.GetOrProvideAsync | lib/pkg/simple/cache.go:95-120 | The answer and the new state are those of `ProvideAsync`. |
| LibSimpleCache.Cache.RunPending | lib/pkg/simple/cache.go:63-65 | The pending refresh of a key runs as one update. A key without one is left alone. |
| LibSimpleCache.Cache.Get | lib/pkg/simple/cache.go:122-132 | Changes nothing. It reports `true` only for an entry within its usable window whose provider succeeded. |
| LibSimpleCache.Cache.Remove | lib/pkg/simple/cache.go:134-136 | Only that key leaves the backend. |
| LibSimpleCache.Cache.Clear | lib/pkg/simple/cache.go:138-140 | The backend is emptied. Nothing else changes. |
| PkgSimpleCache.Lookup | pkg/simple/cache.go:57-58 | An entry is found only if the backend holds a live value of the entry type. A value of another type reads as absent. |
| PkgSimpleCache.Timeline | pkg/simple/cache.go:55-93 | Fresh, then stale, then a miss by elapsed time. While usable, the entry keeps the provider's value and error verbatim. |
| PkgSimpleCache.FreshAfterMiss | pkg/simple/cache.go:55-73 | A miss returns the provider's own `(value, error)`. A call within the actual TTL returns that pair verbatim, with no provider call and no write. |
| PkgSimpleCache.StaleReadSchedulesRefresh | pkg/simple/cache.go:62-67 | A grace-window read returns the stored pair and schedules the key's refresh. A repeated read schedules nothing more. |
| PkgSimpleCache.AsyncAgreesWhenCached | pkg/simple/cache.go:95-120 | On a hit or a stale read, the asynchronous call answers and changes the state exactly as the synchronous one. |
| PkgSimpleCache.AsyncMissReturnsNilError | pkg/simple/cache.go:116-119 | An asynchronous miss returns the default with a nil error. The refresh it schedules ends in the state of the synchronous call. |
| PkgSimpleCache.ReadReportsCachedFailure | pkg/simple/cache.go:122-132 | Within the usable window, `Get` returns `(value, true, err)`, so a cached failure reports `true`. Afterwards it returns `(zero, false, nil)`. |
| PkgSimpleCache.Cache.constructor | pkg/simple/cache.go:47-53 | A new cache has the given backend, no pending refresh and no calls. |
| PkgSimpleCache.Cache.Serve | pkg/simple/cache.go:55-69 | A fresh or stale entry is served with its stored error. Only a stale one schedules a refresh. |
| PkgSimpleCache.Cache.UpdateValueFromProvider | pkg/simple/cache.go:75-93 | One provider call. The entry stores the provider's error, anchored at `later`, with backend TTL = usable TTL. |
| PkgSimpleCache.Cache.GetOrProvide | pkg/simple/cache.go:55-73 | The answer and the new state are those of `Provide`. |
| PkgSimpleCache.Cache.GetOrProvideAsync | pkg/simple/cache.go:95-120 | The answer and the new state are those of `ProvideAsync`. |
| PkgSimpleCache.Cache.RunPending | pkg/simple/cache.go:63-65 | The pending refresh of a key runs as one update. |
| PkgSimpleCache.Cache.Get | pkg/simple/cache.go:122-132 | Changes nothing. It reports found exactly when an entry is within its usable window. |
| PkgSimpleCache.Cache.Remove | pkg/simple/cache.go:134-136 | Only that key leaves the backend. |
| PkgSimpleCache.Cache.Clear | pkg/simple/cache.go:138-140 | The backend is emptied. |
| SweetCache.Lookup | lib/pkg/sweet/simple.go:55-56 | An entry is found only if the backend holds a live value of the entry type. |
| SweetCache.Timeline | lib/pkg/sweet/simple.go:53-90 | An entry written at `later` is fresh for `actualTTL` and stale afterwards. It is a miss only once a positive usable TTL has run out. With usable TTL 0 it stays stale forever. |
| SweetCache.NegativeUsableLeavesAbsent | lib/pkg/sweet/simple.go:27-30 | A reply with a negative usable TTL is discarded. An absent key stays absent. |
| SweetCache.MissReturnsStoredItem | lib/pkg/sweet/simple.go:68-89 | A miss calls the provider once. The caller gets exactly the `(value, ok)` of the item now stored. |
| SweetCache.ZeroUsableServedStaleForever | lib/pkg/sweet/simple.go:57-64 | With no upper bound in the cache, an entry written with usable TTL 0 is served stale, with a refresh scheduled, at every reading past its actual instant. |
| SweetCache.ReadAgreesWithProvide | lib/pkg/sweet/simple.go:118-125 | `Get` returns any present entry regardless of the clock, which is what `GetOrProvide` serves. It misses exactly when `GetOrProvide` would call the provider. |
| SweetCache.AsyncAgreesWhenCached | lib/pkg/sweet/simple.go:92-116 | On a hit or a stale read, the asynchronous call answers and changes the state exactly as the synchronous one. |
| SweetCache.AsyncMissThenRefresh | lib/pkg/sweet/simple.go:112-115 | An asynchronous miss returns `(default, false)`. The refresh it schedules ends in the state of the synchronous call. |
| SweetCache.Cache.constructor | lib/pkg/sweet/simple.go:45-51 | A new cache has the given backend, no pending refresh and no calls. |
| SweetCache.Cache.Serve | lib/pkg/sweet/simple.go:53-66 | Any present entry is served. One past its actual instant schedules a refresh. |
| SweetCache.Cache.UpdateValueFromProvider | lib/pkg/sweet/simple.go:72-90 | One provider call. It stores `ok` and `later + actualTTL` with backend TTL = usable TTL, and returns the stored item's `(value, ok)`. |
| SweetCache.Cache.GetOrProvide | lib/pkg/sweet/simple.go:53-70 | The answer and the new state are those of `Provide`. |
| SweetCache.Cache.GetOrProvideAsync | lib/pkg/sweet/simple.go:92-116 | The answer and the new state are those of `ProvideAsync`. |
| SweetCache.Cache.RunPending | lib/pkg/sweet/simple.go:61-63 | The pending refresh of a key runs as one update. |
| SweetCache.Cache.Get | lib/pkg/sweet/simple.go:118-125 | Changes nothing and answers any present entry. |
| SweetCache.Cache.Remove | lib/pkg/sweet/simple.go:127-129 | Only that key leaves the backend. |
| SweetCache.Cache.Clear | lib/pkg/sweet/simple.go:131-133 | The backend is emptied. |
| SimpleTwoLevel.WithRemoteCache | lib/pkg/sweet/providers.go:46-73 | The value is the remote's, and the error is nil exactly when the remote reports success; otherwise it is "fail get value from remote cache". The TTLs are the base provider's if the remote invoked it, and zero if not. |
| SimpleTwoLevel.BothEmptyBaseRunsOnce | lib/pkg/simple/twolevel.go:20-22 | With both tiers empty, the base provider runs exactly once, through the back tier. Both tiers end up holding the same entry, built from the base reply. |
| SimpleTwoLevel.FreshBackSparesBase | lib/pkg/simple/twolevel.go:20-22 | With an empty front and a fresh back, the base provider is not called and the back is unchanged. The front stores the back's value with zero TTLs, so every later front read misses again. |
| SimpleTwoLevel.ReadSeesProvided | lib/pkg/simple/twolevel.go:28-34 | After a `GetOrProvide` that finds neither tier holding the key, with a positive usable TTL, `Get` at the same reading returns what `GetOrProvide` returned, on success and on failure. |
| SimpleTwoLevel.AsyncFrontMissThenRefresh | lib/pkg/simple/twolevel.go:24-26 | On a front miss, `GetOrProvideAsync` returns `(default, false)` and leaves the back tier untouched. Running the refresh it schedules leaves both tiers as the synchronous `GetOrProvide` would. |
| SimpleTwoLevel.AsyncAgreesWhenFrontCached | lib/pkg/simple/twolevel.go:24-26 | When the front does not miss, `GetOrProvideAsync` answers and changes both tiers exactly as `GetOrProvide`. |
| SimpleTwoLevel.RemovedFromBothTiers | lib/pkg/simple/twolevel.go:36-39 | After `Remove`, neither tier holds the key and `Get` misses. |
| SimpleTwoLevel.ClearKeepsBackEntries | lib/pkg/simple/twolevel.go:41-44 | As written, `Clear` leaves the back tier intact. `Get` still answers every key the back holds. |
| SimpleTwoLevel.ClearedBothEmpties | lib/pkg/simple/twolevel.go:41-44 | Clearing both tiers leaves nothing for `Get` to answer. |
| SimpleTwoLevel.InvokeWithRemoteCache | lib/pkg/sweet/providers.go:46-73 | The remote cache object's call and the reply are those of `WithRemoteCache`. |
| SimpleTwoLevel.TwoLevelCache.constructor | lib/pkg/simple/twolevel.go:16-18 | The tiers are the given distinct caches. |
| SimpleTwoLevel.TwoLevelCache.GetOrProvide | lib/pkg/simple/twolevel.go:20-22 | Both tiers end as, and the answer is, the front's `GetOrProvide` with the provider wrapped by `WithRemoteCache(back, base)`. |
| SimpleTwoLevel.TwoLevelCache.GetOrProvideAsync | lib/pkg/simple/twolevel.go:24-26 | The front's asynchronous call. The back is reached by the refresh it schedules. |
| SimpleTwoLevel.TwoLevelCache.RunPending | lib/pkg/simple/twolevel.go:24-26 | The front's scheduled refresh runs the wrapped provider against the back. |
| SimpleTwoLevel.TwoLevelCache.Get | lib/pkg/simple/twolevel.go:28-34 | Writes neither tier. It answers as `Read`: front first, then back. |
| SimpleTwoLevel.TwoLevelCache.Remove | lib/pkg/simple/twolevel.go:36-39 | The key leaves both tiers. |
| SimpleTwoLevel.TwoLevelCache.Clear | lib/pkg/simple/twolevel.go:41-44 | As written: the front is emptied and the back is left alone. |
| SimpleTwoLevel.TwoLevelCache.ClearBothTiers | lib/pkg/simple/twolevel.go:41-44 | Corrected: both tiers are emptied. |
| SweetTwoLevel.WithRemoteCache | lib/pkg/sweet/providers.go:46-73 | For success-flag providers: the value and flag are the remote's. The TTLs are the base provider's if the remote invoked it, and zero otherwise. |
| SweetTwoLevel.BothEmptyBaseRunsOnce | lib/pkg/sweet/twolevel.go:18-20 | With both tiers empty, the base provider runs once, and both tiers hold the same entry. |
| SweetTwoLevel.FreshBackLeavesFrontStale | lib/pkg/sweet/twolevel.go:18-20 | With an empty front and a fresh back, the base provider is not called. The front stores the back's value with zero TTLs, so it is served stale, with a refresh, at every later reading. |
| SweetTwoLevel.ReadSeesProvided | lib/pkg/sweet/twolevel.go:26-32 | After a `GetOrProvide` that finds neither tier holding the key, with a non-negative usable TTL, `Get` at the same reading returns what `GetOrProvide` returned, on success and on failure. |
| SweetTwoLevel.AsyncFrontMissThenRefresh | lib/pkg/sweet/twolevel.go:22-24 | On a front miss, `GetOrProvideAsync` returns `(default, false)` and leaves the back tier untouched. Running the refresh it schedules leaves both tiers as the synchronous `GetOrProvide` would. |
| SweetTwoLevel.AsyncAgreesWhenFrontCached | lib/pkg/sweet/twolevel.go:22-24 | When the front holds an entry, `GetOrProvideAsync` answers and changes both tiers exactly as `GetOrProvide`. |
| SweetTwoLevel.RemovedFromBothTiers | lib/pkg/sweet/twolevel.go:34-37 | After `Remove`, neither tier holds the key and `Get` misses. |
| SweetTwoLevel.ClearedEmpties | lib/pkg/sweet/twolevel.go:39-42 | After `Clear`, `Get` misses every key. |
| SweetTwoLevel.InvokeWithRemoteCache | lib/pkg/sweet/providers.go:46-73 | The remote cache object's call and the reply are those of `WithRemoteCache`. |
| SweetTwoLevel.TwoLevelCache.constructor | lib/pkg/sweet/twolevel.go:14-16 | The tiers are the given distinct caches. |
| SweetTwoLevel.TwoLevelCache.GetOrProvide | lib/pkg/sweet/twolevel.go:18-20 | The front's `GetOrProvide` with the provider wrapped by the back tier. |
| SweetTwoLevel.TwoLevelCache.GetOrProvideAsync | lib/pkg/sweet/twolevel.go:22-24 | The front's asynchronous call. |
| SweetTwoLevel.TwoLevelCache.RunPending | lib/pkg/sweet/twolevel.go:22-24 | The front's scheduled refresh runs the wrapped provider against the back. |
| SweetTwoLevel.TwoLevelCache.Get | lib/pkg/sweet/twolevel.go:26-32 | Front first, then back, with no write. |
| SweetTwoLevel.TwoLevelCache.Remove | lib/pkg/sweet/twolevel.go:34-37 | The key leaves both tiers. |
| SweetTwoLevel.TwoLevelCache.Clear | lib/pkg/sweet/twolevel.go:39-42 | Both tiers are emptied. |
| SweetKeys.GlobalCacheKeyGenerator.GetCacheKey | lib/pkg/sweet/keys.go:19-21 | Returns exactly the stored key. |
| SweetKeys.FromPrefix | lib/pkg/sweet/keys.go:28-39 | Fails with `InvalidCacheKeyErr` exactly for keys that are neither strings nor generators. Otherwise the derived key starts with the prefix, and the rest is the string or the generator's key verbatim. |
| SweetKeys.NewGlobalCacheKeyGenerator | lib/pkg/sweet/keys.go:23-26 | The derived key is namespace ⧺ sep ⧺ cacheName ⧺ sep ⧺ raw key. Other key shapes are an error. |
| SweetKeys.DerivedKeysInjective | lib/pkg/sweet/keys.go:38 | For a fixed prefix, valid keys derive the same key if and only if their raw strings are equal. |
| SweetKeys.NestedPrefixes | lib/pkg/sweet/keys.go:33-38 | Namespacing an already namespaced generator puts the outer prefix before the inner one. |
| SweetKeys.SeparatorInNameCollides | lib/pkg/sweet/keys.go:23-26 | The derived key does not determine the cache name. With the separator inside names, cache "a" with key "b:c" and cache "a:b" with key "c" collide. |
| SweetKeys.InvalidKeyNeverReachesBack | lib/pkg/sweet/keys.go:53-59 | An invalid key answers `(zero, false)`, with no provider call and no write. |
| SweetKeys.ForwardedGetMissesProvided | lib/pkg/sweet/keys.go:65-67 | As written, from any back state holding neither the raw nor the namespaced key, `GetOrProvide` calls the provider once and returns its answer, and `Get` of the same key then misses. |
| SweetKeys.ForwardedRemoveKeepsProvided | lib/pkg/sweet/keys.go:69-71 | As written, `Remove` leaves the entry `GetOrProvide` stored for the same key. |
| SweetKeys.ReadNamespacedAgreesWithProvide | lib/pkg/sweet/keys.go:53-59 | A namespaced `Get` returns what `GetOrProvide` serves from the cache. It misses exactly when the provider would run. |
| SweetKeys.ReadNamespacedSeesProvided | lib/pkg/sweet/keys.go:53-59 | After a `GetOrProvide` that misses, with a non-negative usable TTL, the namespaced `Get` returns its answer. |
| SweetKeys.ForwardedAsyncRefreshUnseen | lib/pkg/sweet/keys.go:61-63 | As written, from any back state holding neither the raw nor the namespaced key, the refresh an asynchronous miss schedules stores under the raw key. A following `GetOrProvide` of the same key misses and calls the provider a second time. |
| SweetKeys.NamespacedAsyncRefreshSeen | lib/pkg/sweet/keys.go:61-63 | With the namespaced asynchronous call, a miss returns `(default, false)`. Once the scheduled refresh of the namespaced key has run, the namespaced `Get` returns the provider's answer. |
| SweetKeys.RemovedNamespacedMisses | lib/pkg/sweet/keys.go:69-71 | After the namespaced `Remove`, the namespaced `Get` misses. |
| SweetKeys.GlobalKeysCache.constructor | lib/pkg/sweet/keys.go:48-51 | The key prefix is namespace ⧺ sep ⧺ cacheName ⧺ sep. |
| SweetKeys.GlobalKeysCache.GetOrProvide | lib/pkg/sweet/keys.go:53-59 | An invalid key answers `(zero, false)` without touching the back cache. Otherwise the back cache's `GetOrProvide` runs with the namespaced key. |
| SweetKeys.GlobalKeysCache.GetOrProvideAsync | lib/pkg/sweet/keys.go:61-63 | As written: the back cache's asynchronous call with the caller's key unchanged. |
| SweetKeys.GlobalKeysCache.Get | lib/pkg/sweet/keys.go:65-67 | As written: the back cache's `Get` with the caller's key unchanged. |
| SweetKeys.GlobalKeysCache.Remove | lib/pkg/sweet/keys.go:69-71 | As written: the back cache's `Remove` with the caller's key unchanged. |
| SweetKeys.GlobalKeysCache.Clear | lib/pkg/sweet/keys.go:73-75 | The back cache is emptied. |
| SweetKeys.GlobalKeysCache.GetOrProvideAsyncNamespaced | lib/pkg/sweet/keys.go:61-63 | Corrected: the answer and the new state are those of `ProvideAsyncNamespaced`. An invalid key answers `(zero, false)`; a valid one goes to the back cache namespaced. |
| SweetKeys.GlobalKeysCache.GetNamespaced | lib/pkg/sweet/keys.go:65-67 | Corrected: answers as `ReadNamespaced`. |
| SweetKeys.GlobalKeysCache.RemoveNamespaced | lib/pkg/sweet/keys.go:69-71 | Corrected: removes the namespaced key. |
| ExampleProviders.ForRemote | examples/otter-redis-example/cmd/main.go:121-125 | What the remote stores keeps the reply's value, error and actual TTL, with usable TTL = actual TTL. |
| ExampleProviders.RemoteCacheProvider | examples/otter-redis-example/cmd/main.go:108-129 | The value and error are the remote's. The TTLs returned are the user provider's own if the remote called it, and zero otherwise. |
| ExampleProviders.RemoteNeverServesStale | examples/otter-redis-example/cmd/main.go:121-125 | On a remote miss, the remote entry is fresh for the actual TTL and a miss afterwards. It is never in a stale window, so the remote never prolongs an entry. |
| ExampleProviders.FixedTTLProvider | examples/otter-redis-example/cmd/main.go:147-167 | When the remote runs it, `f`'s value and error come back with the positive TTL pair on success and the negative pair on failure. When the remote answers from its cache, both TTLs are zero. |
| ExampleProviders.SimpleFixedTTLProvider | examples/otter-redis-example/cmd/main.go:169-183 | When the remote runs it, `f`'s value and error come back. The usable TTL is chosen by the outcome, and the actual TTL is its truncated half. Otherwise both TTLs are zero. |
| ExampleProviders.FixedTTLThroughRemote | examples/otter-redis-example/cmd/main.go:147-167 | On a remote miss, `f` runs once, and the negative TTLs come back on error and the positive ones on success. On a remote hit, `f` is not called and the TTLs are zero. |
| ExampleProviders.SimpleFixedHalvesRemoteLife | examples/otter-redis-example/cmd/main.go:169-183 | On a remote miss, with non-negative TTLs, the caller gets the usable TTL chosen by outcome and its truncated half as actual TTL. The remote keeps the entry for only that half. |
| ExampleProviders.InvokeRemoteCacheProvider | examples/otter-redis-example/cmd/main.go:108-129 | The remote cache object's call and the reply are those of `RemoteCacheProvider`. |

## Left out

- Goroutines and the single-flight group (`resenje.org/singleflight`) are modelled sequentially:
  - a scheduled refresh is a key in `pending`, and `RunPending` runs it;
  - a synchronous miss on a pending key joins it.
  - Interleavings, several blocked joiners and `context` cancellation are not modelled.
  - A refresh goroutine that reaches `sfg.Do` after an earlier flight for the same key has finished starts a second provider call. `StaleReadsShareOneRefresh`, `StaleBurstOneRefresh` and `SyncMissAbsorbsRefresh` assume the favourable overlap, where the flights join.
- The provider of a scheduled refresh is supplied when `RunPending` runs. The model does not record the closure captured when the refresh was scheduled.
- Monitoring hooks (lib/pkg/sweet/monitoring.go) are not modelled; they have no effect on control flow.
- The Redis and Otter adapters are not modelled. The backend store is an abstract map with the `SetWithTTL` rules. Capacity eviction is not modelled, but every lemma is stated for an arbitrary starting state, constraining only the keys it is about.
- `Set` without a TTL, from the `SimpleCache` interface, is not used by the caches and is not modelled.
- Go's `int64` overflow in `now.Add` and in durations is not modelled: instants and durations are unbounded integers.
- Both tiers of a two-level cache are read at the same clock readings (`now`, `later`).
- The two tiers must be distinct objects. A cache used as its own back tier is not modelled.
- The back tier of a two-level cache is a cache of the same package. A remote adapter whose `Get` always misses, or whose `Clear` does nothing, is not modelled.
- Keys derived by `lib/pkg/sweet/keys.go` are compared by their derived string, not by the identity of the `*GlobalCacheKeyGenerator` pointer.
- A `CacheKeyGenerator` key is represented by the string its `GetCacheKey` returns.
- `WithRemoteCache` in lib/pkg/sweet/providers.go is written for providers returning `(value, actualTTL, usableTTL, err)`. lib/pkg/sweet/cache.go declares `(ok, value, actualTTL, usableTTL)`. `SweetTwoLevel.WithRemoteCache` is the same rule restated for the success-flag shape.
- The remote of `remoteCacheProvider` in main.go is modelled as a cache of pkg/simple/cache.go, which returns `(V, error)` as that code requires.
- LibSimpleCache.ReadAgreesWithProvide: stated only for entries whose actual instant is not after their usable one. For an entry with `actual > usable`, `GetOrProvide` serves it as fresh while `Get` reports a miss.

Where the code and the library's documented design differ, the model follows the code:

- The documented invariant `actual <= usable` is not enforced. `Providers.HalvedWindowsReversedWhenNegative` shows how `SimpleFixedTTLProvider` breaks it.
- The documented namespacing wrapper rewrites every key. The code rewrites only in `GetOrProvide` (see Findings).
- An invalid key is documented as a distinct error. The code answers `(zero, false)`, which is the same as a failed provider call.
- The sweet variant has no usable bound of its own.

## Findings

| source | as written | input that shows it | evidently intended | confidence | as-written member | corrected member |
|---|---|---|---|---|---|---|
| lib/pkg/simple/twolevel.go:41-44 | `Clear` clears the front tier twice and never the back tier | the back tier holds a usable entry for `k`; after `Clear`, `Get(k)` still returns it | clear the front and then the back, as lib/pkg/sweet/twolevel.go does | high; not executed | SimpleTwoLevel.ClearKeepsBackEntries | SimpleTwoLevel.ClearedBothEmpties |
| lib/pkg/sweet/keys.go:65-67 | `Get` forwards the caller's key, while `GetOrProvide` stores under the namespaced key | prefix `p`, empty back cache: `GetOrProvide("k")` returns the provider's value and stores under `p+"k"`; then `Get("k")` misses | derive the namespaced key in `Get` too | medium; not executed | SweetKeys.ForwardedGetMissesProvided | SweetKeys.ReadNamespacedSeesProvided |
| lib/pkg/sweet/keys.go:61-63 | `GetOrProvideAsync` forwards the caller's key, while `GetOrProvide` uses the namespaced key | prefix `p`, empty back cache: `GetOrProvideAsync("k")` schedules a refresh that stores under `"k"`; then `GetOrProvide("k")` misses under `p+"k"` and calls the provider again | derive the namespaced key in `GetOrProvideAsync` too | medium; not executed | SweetKeys.ForwardedAsyncRefreshUnseen | SweetKeys.NamespacedAsyncRefreshSeen |
| lib/pkg/sweet/keys.go:69-71 | `Remove` forwards the caller's key | after `GetOrProvide("k")`, `Remove("k")` leaves the entry under `p+"k"` in place | derive the namespaced key in `Remove` too | medium; not executed | SweetKeys.ForwardedRemoveKeepsProvided | SweetKeys.RemovedNamespacedMisses |
