/** The helpers that choose a hook's initial state from the cache, the initial
    data and the dispatcher. The wall clock is the parameter `now`; the cache
    lookup and the dispatcher's `hasRunningRequests` are function parameters. */
module TrackedState {
  import opened Values

  /** The request fields the helpers read. `clearKey` is the client cache's
      clear key, which the source reads through `request.client.cache`. */
  datatype Request = Request(
    cacheKey: string,
    queueKey: string,
    cacheTime: int,
    garbageCollection: int,
    clearKey: string)

  /** A cache value: the response tuple, its details and the cache settings
      it was written with. */
  datatype CacheValue = CacheValue(
    data: Response,
    details: Details,
    cacheTime: int,
    clearKey: string,
    garbageCollection: int)

  /** A partial details object: None is a key that is absent. */
  datatype DetailsPatch = DetailsPatch(
    retries: Option<int>,
    timestamp: Option<int>,
    isFailed: Option<bool>,
    isCanceled: Option<bool>,
    isOffline: Option<bool>)

  const NoPatch := DetailsPatch(None, None, None, None, None)

  /** The part of the hook's tracked state the helpers set. */
  datatype State = State(
    data: JsValue,
    error: JsValue,
    status: JsValue,
    retries: int,
    timestamp: Option<int>,
    loading: bool)

  /** The cache time given to a value built from initial data. */
  const InitialDataCacheTime := 1000

  function Pick<T>(o: Option<T>, default: T): T {
    if o.Some? then o.value else default
  }

  /** `{ ...defaults, ...patch }`: the fields present in the patch win. */
  function ApplyPatch(defaults: Details, patch: DetailsPatch): Details {
    Details(
      Pick(patch.retries, defaults.retries),
      Pick(patch.timestamp, defaults.timestamp),
      Pick(patch.isFailed, defaults.isFailed),
      Pick(patch.isCanceled, defaults.isCanceled),
      Pick(patch.isOffline, defaults.isOffline))
  }

  /** getDetailsState: default details (no failure, no cancel, online, the
      state's retries or 0, stamped now) with the supplied fields overriding. */
  function GetDetailsState(state: Option<State>, patch: DetailsPatch, now: int): (d: Details)
    ensures patch.retries.None? ==> d.retries == (if state.Some? then state.value.retries else 0)
    ensures patch.timestamp.None? ==> d.timestamp == now
    ensures patch.isFailed.None? ==> !d.isFailed
    ensures patch.isCanceled.None? ==> !d.isCanceled
    ensures patch.isOffline.None? ==> !d.isOffline
    ensures patch.retries.Some? ==> d.retries == patch.retries.value
    ensures patch.timestamp.Some? ==> d.timestamp == patch.timestamp.value
    ensures patch.isFailed.Some? ==> d.isFailed == patch.isFailed.value
    ensures patch.isCanceled.Some? ==> d.isCanceled == patch.isCanceled.value
    ensures patch.isOffline.Some? ==> d.isOffline == patch.isOffline.value
  {
    var retries := if state.Some? && state.value.retries != 0 then state.value.retries else 0;
    ApplyPatch(Details(retries, now, false, false, false), patch)
  }

  /** A patch that names every field fixes the details whatever the state and clock. */
  lemma FullPatchIgnoresDefaults(s1: Option<State>, s2: Option<State>, patch: DetailsPatch, t1: int, t2: int)
    requires patch.retries.Some? && patch.timestamp.Some? && patch.isFailed.Some?
    requires patch.isCanceled.Some? && patch.isOffline.Some?
    ensures GetDetailsState(s1, patch, t1) == GetDetailsState(s2, patch, t2)
  {
  }

  /** isStaleCacheData: a missing or zero timestamp is stale; otherwise the
      value is stale once `now` is strictly past `timestamp + cacheTime`. */
  function IsStale(cacheTime: int, timestamp: Option<int>, now: int): (stale: bool)
    ensures !stale <==> timestamp.Some? && timestamp.value != 0 && now <= timestamp.value + cacheTime
  {
    !TruthyNumber(timestamp) || now > timestamp.value + cacheTime
  }

  /** Staleness never wears off as time passes. */
  lemma StaleStaysStale(cacheTime: int, timestamp: Option<int>, now: int, later: int)
    requires now <= later
    ensures IsStale(cacheTime, timestamp, now) ==> IsStale(cacheTime, timestamp, later)
  {
  }

  /** A longer cache time never makes fresh data stale. */
  lemma LongerCacheTimeKeepsFresh(cacheTime: int, longer: int, timestamp: Option<int>, now: int)
    requires cacheTime <= longer
    ensures !IsStale(cacheTime, timestamp, now) ==> !IsStale(longer, timestamp, now)
  {
  }

  /** With cache time 10, data 11 ms old is stale; data 10 ms or 9 ms old is
      fresh (the comparison is strict); a zero or missing timestamp is stale. */
  lemma StalenessByAge(t: int, now: int)
    requires t != 0
    ensures IsStale(10, Some(t), t + 11)
    ensures !IsStale(10, Some(t), t + 10)
    ensures !IsStale(10, Some(t), t + 9)
    ensures IsStale(10, Some(0), now) && IsStale(10, None, now)
  {
  }

  /** A cache time of 0 does not mean "never stale": a value is stale one
      millisecond after it was written. */
  lemma ZeroCacheTimeExpiresAtOnce(t: int)
    requires t != 0
    ensures !IsStale(0, Some(t), t)
    ensures IsStale(0, Some(t), t + 1)
  {
  }

  /** Whether a cached value (if any) is fresh for this request at `now`. */
  predicate FreshCache(request: Request, cacheData: Option<CacheValue>, now: int) {
    cacheData.Some? && !IsStale(request.cacheTime, Some(cacheData.value.details.timestamp), now)
  }

  /** The value getValidCacheData builds from initial data. */
  function FromInitialData(request: Request, initialData: Response, now: int): CacheValue {
    CacheValue(initialData, GetDetailsState(None, NoPatch, now), InitialDataCacheTime,
               request.clearKey, request.garbageCollection)
  }

  /** getValidCacheData: fresh cache first, else the initial data wrapped as a
      cache value, else null. */
  function GetValidCacheData(request: Request, initialData: Option<Response>,
                             cacheData: Option<CacheValue>, now: int): (r: Option<CacheValue>)
    ensures FreshCache(request, cacheData, now) ==> r == cacheData
    ensures !FreshCache(request, cacheData, now) && initialData.Some? ==>
      r.Some? && r.value.data == initialData.value &&
      r.value.cacheTime == 1000 &&
      r.value.details == Details(0, now, false, false, false) &&
      r.value.clearKey == request.clearKey &&
      r.value.garbageCollection == request.garbageCollection
    ensures r.None? <==> !FreshCache(request, cacheData, now) && initialData.None?
  {
    var timestamp := if cacheData.Some? then Some(cacheData.value.details.timestamp) else None;
    var isStale := IsStale(request.cacheTime, timestamp, now);
    if !isStale && cacheData.Some? then cacheData
    else if initialData.Some? then Some(FromInitialData(request, initialData.value, now))
    else None
  }

  /** The fresh cache wins over initial data, whatever the initial data is. */
  lemma FreshCacheWinsOverInitialData(request: Request, a: Option<Response>, b: Option<Response>,
                                      cacheData: Option<CacheValue>, now: int)
    requires FreshCache(request, cacheData, now)
    ensures GetValidCacheData(request, a, cacheData, now) == GetValidCacheData(request, b, cacheData, now)
  {
  }

  /** A stale cache value is treated exactly as a missing one. */
  lemma StaleCacheIsIgnored(request: Request, initialData: Option<Response>, cached: CacheValue, now: int)
    requires IsStale(request.cacheTime, Some(cached.details.timestamp), now)
    ensures GetValidCacheData(request, initialData, Some(cached), now) == GetValidCacheData(request, initialData, None, now)
  {
  }

  /** getTimestamp: null for a falsy timestamp, otherwise the same instant. */
  function GetTimestamp(timestamp: Option<int>): (r: Option<int>)
    ensures r.None? <==> !TruthyNumber(timestamp)
    ensures r.Some? ==> r == timestamp && r.value != 0
  {
    if TruthyNumber(timestamp) then timestamp else None
  }

  /** getInitialState: the hook's first state. `loading` is whether the
      dispatcher runs requests for the request's queue key; each of data,
      error, status, retries and timestamp comes from the chosen cache value
      when it is truthy there and from `initial` otherwise. */
  function GetInitialState(initialData: Option<Response>, initial: State, request: Request,
                           cacheGet: string -> Option<CacheValue>,
                           hasRunningRequests: string -> bool, now: int): (s: State)
    ensures s.loading == hasRunningRequests(request.queueKey)
    ensures var cs := GetValidCacheData(request, initialData, cacheGet(request.cacheKey), now);
      && (cs.Some? && Truthy(cs.value.data.data) ==> s.data == cs.value.data.data)
      && (cs.Some? && Truthy(cs.value.data.error) ==> s.error == cs.value.data.error)
      && (cs.Some? && Truthy(cs.value.data.status) ==> s.status == cs.value.data.status)
      && (cs.Some? && cs.value.details.retries != 0 ==> s.retries == cs.value.details.retries)
      && (cs.Some? && cs.value.details.timestamp != 0 ==> s.timestamp == Some(cs.value.details.timestamp))
      && (cs.None? || !Truthy(cs.value.data.data) ==> s.data == initial.data)
      && (cs.None? || !Truthy(cs.value.data.error) ==> s.error == initial.error)
      && (cs.None? || !Truthy(cs.value.data.status) ==> s.status == initial.status)
      && (cs.None? || cs.value.details.retries == 0 ==> s.retries == initial.retries)
      && (cs.None? || cs.value.details.timestamp == 0 ==> s.timestamp == GetTimestamp(initial.timestamp))
  {
    var cacheData := cacheGet(request.cacheKey);
    var cacheState := GetValidCacheData(request, initialData, cacheData, now);
    var initialLoading := hasRunningRequests(request.queueKey);
    if cacheState.None? then
      State(initial.data, initial.error, initial.status, initial.retries,
            GetTimestamp(initial.timestamp), initialLoading)
    else
      var cv := cacheState.value;
      var timestamp := if cv.details.timestamp != 0 then Some(cv.details.timestamp) else initial.timestamp;
      State(Or(cv.data.data, initial.data), Or(cv.data.error, initial.error),
            Or(cv.data.status, initial.status),
            if cv.details.retries != 0 then cv.details.retries else initial.retries,
            GetTimestamp(timestamp), initialLoading)
  }

  /** A fresh cache entry is what the hook starts from: its data, error,
      status, retries and timestamp when they are truthy. */
  lemma InitialStateShowsFreshCache(initialData: Option<Response>, initial: State, request: Request,
                                    cacheGet: string -> Option<CacheValue>,
                                    hasRunningRequests: string -> bool, now: int)
    requires FreshCache(request, cacheGet(request.cacheKey), now)
    requires var cv := cacheGet(request.cacheKey).value;
      Truthy(cv.data.data) && Truthy(cv.data.error) && Truthy(cv.data.status) &&
      cv.details.retries != 0 && cv.details.timestamp != 0
    ensures var cv := cacheGet(request.cacheKey).value;
      GetInitialState(initialData, initial, request, cacheGet, hasRunningRequests, now) ==
      State(cv.data.data, cv.data.error, cv.data.status, cv.details.retries,
            Some(cv.details.timestamp), hasRunningRequests(request.queueKey))
  {
  }

  /** Without a fresh cache entry, initial data supplies data, error and
      status; retries fall back to the initial state's and the timestamp is
      the current instant. */
  lemma InitialStateShowsInitialData(data: Response, initial: State, request: Request,
                                     cacheGet: string -> Option<CacheValue>,
                                     hasRunningRequests: string -> bool, now: int)
    requires !FreshCache(request, cacheGet(request.cacheKey), now)
    requires Truthy(data.data) && Truthy(data.error) && Truthy(data.status) && now != 0
    ensures GetInitialState(Some(data), initial, request, cacheGet, hasRunningRequests, now) ==
      State(data.data, data.error, data.status, initial.retries, Some(now),
            hasRunningRequests(request.queueKey))
  {
  }

  /** With neither a fresh entry nor initial data, the hook starts from the
      initial state, with only `loading` taken from the dispatcher. */
  lemma InitialStateWithoutData(initial: State, request: Request,
                                cacheGet: string -> Option<CacheValue>,
                                hasRunningRequests: string -> bool, now: int)
    requires !FreshCache(request, cacheGet(request.cacheKey), now)
    ensures GetInitialState(None, initial, request, cacheGet, hasRunningRequests, now) ==
      initial.(timestamp := GetTimestamp(initial.timestamp), loading := hasRunningRequests(request.queueKey))
  {
  }
}
