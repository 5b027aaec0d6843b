# hyper-fetch core, modelled in Dafny

This project models four pieces of the hyper-fetch request library and proves
properties of them:

- **The cache store** (`cache_store.dfy`, module `Cache`). A keyed map from
  cache key to entry. It keeps the order in which keys were first stored. It
  has per-key `onData` and `onRevalidate` listener lists. Each subscription
  returns a handle, and passing the handle to `Unsubscribe` is calling the
  returned unsubscribe function. Calling a listener appends an `Event` to the
  store's `log`, so "called exactly once" and "never called" can be stated.
  `set` always calls the key's data listeners, and stores the entry only when
  the request has caching enabled. `delete` removes an entry silently.
  `revalidate` removes it and calls the key's revalidate listeners. `keys`
  gives insertion order. `clear` empties the store and calls nobody. The
  test scenarios of the store's test suite are methods in
  `cache_scenarios.dfy` (module `CacheScenarios`). Each runs on a fresh store,
  and its `ensures` are the test's assertions.
- **Staleness and the hook's initial state** (`tracked_state.dfy`, module
  `TrackedState`). This covers `isStaleCacheData`, `getValidCacheData`,
  `getDetailsState`, `getTimestamp` and `getInitialState`. The wall clock is
  the parameter `now`. The source reads the clock separately in
  `isStaleCacheData` and in `getDetailsState`; the model reads one instant
  `now` for both, so the two never differ by the milliseconds between the
  reads. The cache lookup and the dispatcher's `hasRunningRequests` are
  function parameters.
- **The request effect** (`request_effect.dfy`, module `RequestEffects`). It
  holds an effect key and optional lifecycle callbacks. A callback is a handle.
  Calling it is a returned `Call` record carrying its arguments in order, and
  an absent callback gives `None`.
- **Version metadata rules of the documentation plugin** (`versions.dfy`,
  module `Versions`). This covers banner, badge, class name, label, path part,
  `filterVersions` and `getLastVersionName`.

`values.dfy` (module `Values`) holds the shared values. These are JavaScript
values with their truthiness, the `[data, error, status]` response tuple, and
the response details.

A cache time of 0 is documented as "never stale". The model follows the
code instead: `isStaleCacheData` marks such a value stale one millisecond
after it was written (`TrackedState.ZeroCacheTimeExpiresAtOnce`).

The cache store's own implementation is not part of this model. Its behaviour
comes from its test suite. Three choices fill the gaps:

- writing an existing key again keeps its place in `keys()`, as a JavaScript
  `Map` does;
- `revalidate` of a key calls that key's revalidate listeners whether or not
  an entry was stored;
- `clear` keeps the subscriptions.

The docs plugin's `CURRENT_VERSION_NAME` constant comes from a constants file
that is not part of this model. It is taken to be `"current"`, its value in
Docusaurus.

## Model

| member | source | states |
|---|---|---|
| Cache.CacheStore.constructor | packages/core/__tests__/features/cache/cache.base.spec.ts:24-28 | a new store holds no entry, no key, no listener and an empty call log |
| Cache.CacheStore.Get | packages/core/__tests__/features/cache/cache.base.spec.ts:37-42 | an entry is returned exactly for the keys `keys()` lists, and it is the stored one |
| Cache.CacheStore.Keys | packages/core/__tests__/features/cache/cache.base.spec.ts:89-96 | the stored keys, each once, in the order in which they were first stored |
| Cache.CacheStore.OnData | packages/core/__tests__/features/cache/cache.base.spec.ts:46-55 | a fresh handle is appended to the key's data listeners; nothing else changes |
| Cache.CacheStore.OnRevalidate | packages/core/__tests__/features/cache/cache.base.spec.ts:65-76 | a fresh handle is appended to the key's revalidate listeners; nothing else changes |
| Cache.CacheStore.Unsubscribe | packages/core/__tests__/features/cache/cache.base.spec.ts:48-53 | the handle leaves its key's list, the other listeners keep their order, entries and log are untouched |
| Cache.CacheStore.Emit | packages/core/__tests__/features/cache/cache.base.spec.ts:46-55 | the log grows by one call per listener of the snapshot, in registration order |
| Cache.CacheStore.Set | packages/core/__tests__/features/cache/cache.base.spec.ts:46-87 | the key's data listeners are each called with the new entry, each exactly once, and no other listener is called; with caching on the entry replaces any old one and a new key is appended to the key order; with caching off the entries and keys are unchanged |
| Cache.CacheStore.Delete | packages/core/__tests__/features/cache/cache.base.spec.ts:57-63 | the entry and its key are gone, no listener is called |
| Cache.CacheStore.Revalidate | packages/core/__tests__/features/cache/cache.base.spec.ts:65-76 | the entry and its key are gone and the key's revalidate listeners are each called exactly once, no other listener at all |
| Cache.CacheStore.Clear | packages/core/__tests__/features/cache/cache.base.spec.ts:99-111 | no entry and no key remain, the log is unchanged |
| Cache.NotifiedOnce | packages/core/__tests__/features/cache/cache.base.spec.ts:46-55 | one emission calls each listener of a duplicate-free list exactly once and any other listener zero times |
| Cache.EachListenerCalledOnce | packages/core/__tests__/features/cache/cache.base.spec.ts:46-55 | in a well-formed registry, one emission to a key calls each of its listeners once and no other listener |
| CacheScenarios.InitializeCache | packages/core/__tests__/features/cache/cache.base.spec.ts:37-42 | a fresh store has no entry for the key; after a set with caching on it has exactly the written one |
| CacheScenarios.SetEmitsDataOnce | packages/core/__tests__/features/cache/cache.base.spec.ts:46-55 | the data listener is called once and the entry is stored |
| CacheScenarios.DeleteRemovesEntry | packages/core/__tests__/features/cache/cache.base.spec.ts:57-63 | after delete the key has no entry |
| CacheScenarios.RevalidateRemovesAndEmits | packages/core/__tests__/features/cache/cache.base.spec.ts:65-76 | after revalidate the key has no entry and its revalidate listener was called once |
| CacheScenarios.DisabledSetEmitsWithoutStoring | packages/core/__tests__/features/cache/cache.base.spec.ts:78-87 | with caching off the data listener is called once and nothing is stored |
| CacheScenarios.KeysInInsertionOrder | packages/core/__tests__/features/cache/cache.base.spec.ts:89-96 | three sets with keys "1", "2", "3" give exactly ["1", "2", "3"] |
| CacheScenarios.ClearEmitsNothing | packages/core/__tests__/features/cache/cache.base.spec.ts:99-111 | clear calls the revalidate listener zero times and leaves no entry, with caching on or off |
| CacheScenarios.UnsubscribeStopsCalls | packages/core/__tests__/features/cache/cache.base.spec.ts:48-53 | after unsubscribing, a second set does not reach the listener: it was called once in all |
| CacheScenarios.SetOverwrites | packages/core/__tests__/features/cache/cache.base.spec.ts:37-42 | a second write replaces the first entry whole and the key is listed once |
| CacheScenarios.DeleteTwiceAndQuietRevalidate | packages/core/__tests__/features/cache/cache.base.spec.ts:57-76 | a second delete changes nothing; revalidating a key without listeners still removes its entry and calls nobody |
| TrackedState.GetDetailsState | packages/react/src/helpers/use-tracked-state/use-tracked-state.utils.ts:14-26 | each field is the supplied override when given, else the default: the state's retries or 0, now, not failed, not canceled, online |
| TrackedState.FullPatchIgnoresDefaults | packages/react/src/helpers/use-tracked-state/use-tracked-state.utils.ts:14-26 | when every field is supplied, neither the state nor the clock affects the details |
| TrackedState.IsStale | packages/react/src/helpers/use-tracked-state/use-tracked-state.utils.ts:28-31 | fresh exactly when the timestamp is present and non-zero and `now` is not past `timestamp + cacheTime`; stale when the timestamp is missing or 0 |
| TrackedState.StaleStaysStale | packages/react/src/helpers/use-tracked-state/use-tracked-state.utils.ts:28-31 | stale data stays stale as time passes |
| TrackedState.LongerCacheTimeKeepsFresh | packages/react/src/helpers/use-tracked-state/use-tracked-state.utils.ts:28-31 | fresh data stays fresh under a longer cache time |
| TrackedState.StalenessByAge | packages/react/src/helpers/use-tracked-state/use-tracked-state.utils.ts:28-31 | with cache time 10: 11 ms old is stale, 10 ms and 9 ms old are fresh; a missing or zero timestamp is stale |
| TrackedState.ZeroCacheTimeExpiresAtOnce | packages/react/src/helpers/use-tracked-state/use-tracked-state.utils.ts:28-31 | with cache time 0 a value is fresh at its own instant and stale one millisecond later |
| TrackedState.GetValidCacheData | packages/react/src/helpers/use-tracked-state/use-tracked-state.utils.ts:33-55 | a fresh cache value is returned unchanged; else initial data is wrapped with cache time 1000 and default details; the result is null exactly when there is neither |
| TrackedState.FreshCacheWinsOverInitialData | packages/react/src/helpers/use-tracked-state/use-tracked-state.utils.ts:38-42 | with a fresh cache value the initial data does not affect the result |
| TrackedState.StaleCacheIsIgnored | packages/react/src/helpers/use-tracked-state/use-tracked-state.utils.ts:38-54 | a stale cache value gives the same result as no cache value |
| TrackedState.GetTimestamp | packages/react/src/helpers/use-tracked-state/use-tracked-state.utils.ts:57-59 | null exactly for a missing or zero timestamp, otherwise the same instant |
| TrackedState.GetInitialState | packages/react/src/helpers/use-tracked-state/use-tracked-state.utils.ts:61-83 | loading is hasRunningRequests(queueKey); data, error, status, retries and timestamp come from the chosen cache value when truthy there and from the initial state otherwise |
| TrackedState.InitialStateShowsFreshCache | packages/react/src/helpers/use-tracked-state/use-tracked-state.utils.ts:69-81 | a fresh entry with truthy fields is the first state |
| TrackedState.InitialStateShowsInitialData | packages/react/src/helpers/use-tracked-state/use-tracked-state.utils.ts:69-81 | without a fresh entry, initial data gives data, error and status, the initial state's retries and the current instant |
| TrackedState.InitialStateWithoutData | packages/react/src/helpers/use-tracked-state/use-tracked-state.utils.ts:69-81 | with neither, the first state is the initial state with only loading and the normalised timestamp set |
| RequestEffects.RequestEffect.GetEffectKey | packages/core/src/effect/request.effect.ts:9-11 | the configured effect key |
| RequestEffects.RequestEffect.OnTrigger | packages/core/src/effect/request.effect.ts:13-15 | calls onTrigger with the request exactly when it is configured, nothing otherwise |
| RequestEffects.RequestEffect.OnStart | packages/core/src/effect/request.effect.ts:16-18 | calls onStart with the request exactly when it is configured |
| RequestEffects.RequestEffect.OnSuccess | packages/core/src/effect/request.effect.ts:19-21 | calls onSuccess with (response, request) exactly when it is configured |
| RequestEffects.RequestEffect.OnError | packages/core/src/effect/request.effect.ts:22-24 | calls onError with (response, request) exactly when it is configured |
| RequestEffects.RequestEffect.OnFinished | packages/core/src/effect/request.effect.ts:25-27 | calls onFinished with (response, request) exactly when it is configured |
| RequestEffects.NotifyReachesOnlyItsCallback | packages/core/src/effect/request.effect.ts:13-27 | every stage calls at most its own callback, with its own argument list, and with distinct handles never another stage's callback |
| RequestEffects.EffectWithoutCallbacksIsSilent | packages/core/src/effect/request.effect.ts:13-27 | an effect without callbacks calls nothing at any stage |
| Versions.IndexOf | documentation/plugins/docusaurus-plugin-api/src/lib/versions/index.js:51 | -1 exactly for an absent name, otherwise the position of its first occurrence |
| Versions.DefaultBanner | documentation/plugins/docusaurus-plugin-api/src/lib/versions/index.js:45-56 | no banner exactly for the last version; "unreleased" exactly when indexed before it; "unmaintained" otherwise |
| Versions.DefaultBannerByPosition | documentation/plugins/docusaurus-plugin-api/src/lib/versions/index.js:45-56 | in a duplicate-free list, a version before the last one is "unreleased" and one after it is "unmaintained" |
| Versions.UnlistedVersionIsUnreleased | documentation/plugins/docusaurus-plugin-api/src/lib/versions/index.js:51-53 | an unlisted version beside a listed last version gets "unreleased" |
| Versions.VersionBanner | documentation/plugins/docusaurus-plugin-api/src/lib/versions/index.js:58-65 | a non-empty banner option wins, "none" meaning no banner; otherwise the default rule |
| Versions.VersionBadge | documentation/plugins/docusaurus-plugin-api/src/lib/versions/index.js:67-73 | a set badge option, false included, wins; otherwise a badge exactly when the list does not have one version |
| Versions.VersionClassName | documentation/plugins/docusaurus-plugin-api/src/lib/versions/index.js:75-78 | the set class name, else "docs-version-" followed by the version name |
| Versions.VersionLabel | documentation/plugins/docusaurus-plugin-api/src/lib/versions/index.js:79-82 | the set label, else "Next" for the current version and the name otherwise |
| Versions.VersionPathPart | documentation/plugins/docusaurus-plugin-api/src/lib/versions/index.js:83-91 | the set path, else "" for the last version, "next" for the current one and the name otherwise |
| Versions.OnlyLastVersionAtRoot | documentation/plugins/docusaurus-plugin-api/src/lib/versions/index.js:83-91 | without options, the path part is empty exactly for the last version |
| Versions.KeepIncluded | documentation/plugins/docusaurus-plugin-api/src/lib/versions/index.js:131 | the listed names with their multiplicities, in input order, as a subsequence of the input |
| Versions.FilterVersions | documentation/plugins/docusaurus-plugin-api/src/lib/versions/index.js:123-134 | the input unchanged without a filter; otherwise the order-preserving subsequence of names the filter lists, with their multiplicities |
| Versions.FilterVersionsIdempotent | documentation/plugins/docusaurus-plugin-api/src/lib/versions/index.js:129-134 | filtering twice equals filtering once |
| Versions.FirstReleased | documentation/plugins/docusaurus-plugin-api/src/lib/versions/index.js:138 | none exactly when every name is the current version's; otherwise a non-current name preceded only by current ones |
| Versions.LastVersionName | documentation/plugins/docusaurus-plugin-api/src/lib/versions/index.js:136-140 | the configured last version; else the current version exactly when every name is current; else the first non-current name |

## Left out

- The cache store's implementation source is not part of this model. Its model follows the tests, with the three choices stated above.
- `revalidate` with a regular expression or predicate is not modelled; only a single string key is. The tests use only a key.
- Garbage collection timers, lazy (persistent) storage and the `await sleep(...)` waits of the tests are left out. They are timers and I/O.
- The dispatcher, its queues, retry, backoff and debounce are not part of this model. Only `hasRunningRequests` appears, as a function parameter of `getInitialState`.
- `src/client/fetch.client.ts` (the XMLHttpRequest transport) is I/O and is left out.
- `getVersionEditUrls`, `createVersionMetadata` and `readVersionsMetadata` are left out. They depend on asynchronous file reads, Node's `path` and the Docusaurus URL utilities, none of which is part of this model.
- JavaScript numbers are integers here. NaN, the infinities, fractions and `Date` parsing are not modelled, and a `Date` is its millisecond count.
- TrackedState.IsStale, TrackedState.GetTimestamp: a `Date` object is always truthy in the source, even `new Date(0)`, so `isStaleCacheData` then compares with the clock and `getTimestamp` returns the Date. The model reads a Date as its millisecond count, so a Date at the epoch counts as missing: stale, and a null timestamp.
- TrackedState.GetDetailsState: a supplied details object whose key is present with the value `undefined` (which a spread copies) is not modelled; an absent key is.
- TrackedState.GetInitialState: fields of the hook's initial state other than data, error, status, retries, timestamp and loading are copied unchanged by the source and are not modelled. The initial state itself is a parameter, because that constant is not part of this model.
- Request effects: what a callback does when called is outside the model. Only the call and its arguments are recorded. The effect is an immutable value, so no method can change its configuration.
- Listener callbacks that unsubscribe while being notified are not modelled. Each notification loop runs over a snapshot of the listener list.
- The socket client helpers, the type-only files, the example UI component, the documentation formatter and the test mocks are not part of the core.
