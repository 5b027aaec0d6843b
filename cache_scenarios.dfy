/** The cache store's test scenarios, each run on a fresh store and proved
    from the store's contracts alone. */
module CacheScenarios {
  import opened Values
  import opened Cache

  /** A fresh store holds nothing for a key; after a set with caching on it
      holds the written entry. */
  method InitializeCache(key: string, response: Response, details: Details)
    returns (before: Option<Entry>, after: Option<Entry>)
    ensures before == None
    ensures after == Some(Entry(response, details))
  {
    var cache := new CacheStore();
    before := cache.Get(key);
    cache.Set(CacheRequest(key, true), response, details);
    after := cache.Get(key);
  }

  /** A data listener is called once by a set, and the entry is stored. */
  method SetEmitsDataOnce(key: string, response: Response, details: Details)
    returns (calls: nat, stored: Option<Entry>)
    ensures calls == 1
    ensures stored == Some(Entry(response, details))
  {
    var cache := new CacheStore();
    var sub := cache.OnData(key);
    cache.Set(CacheRequest(key, true), response, details);
    assert cache.log == Notifications([sub.id], DataEmitted(key, Entry(response, details)));
    cache.Unsubscribe(sub);
    NotifiedOnce([sub.id], DataEmitted(key, Entry(response, details)), sub.id);
    calls := CallCount(cache.log, sub.id);
    stored := cache.Get(key);
  }

  /** After delete the key holds nothing. */
  method DeleteRemovesEntry(key: string, response: Response, details: Details)
    returns (after: Option<Entry>)
    ensures after == None
  {
    var cache := new CacheStore();
    cache.Set(CacheRequest(key, true), response, details);
    cache.Delete(key);
    after := cache.Get(key);
  }

  /** Revalidate removes the entry and calls the revalidate listener once. */
  method RevalidateRemovesAndEmits(key: string, response: Response, details: Details)
    returns (calls: nat, after: Option<Entry>)
    ensures calls == 1
    ensures after == None
  {
    var cache := new CacheStore();
    var sub := cache.OnRevalidate(key);
    cache.Set(CacheRequest(key, true), response, details);
    cache.Revalidate(key);
    assert cache.log == Notifications([sub.id], RevalidateEmitted(key));
    NotifiedOnce([sub.id], RevalidateEmitted(key), sub.id);
    calls := CallCount(cache.log, sub.id);
    after := cache.Get(key);
    cache.Unsubscribe(sub);
  }

  /** With caching off a set still calls the data listener once but stores
      nothing. */
  method DisabledSetEmitsWithoutStoring(key: string, response: Response, details: Details)
    returns (calls: nat, after: Option<Entry>)
    ensures calls == 1
    ensures after == None
  {
    var cache := new CacheStore();
    var sub := cache.OnData(key);
    cache.Set(CacheRequest(key, false), response, details);
    assert cache.log == Notifications([sub.id], DataEmitted(key, Entry(response, details)));
    cache.Unsubscribe(sub);
    NotifiedOnce([sub.id], DataEmitted(key, Entry(response, details)), sub.id);
    calls := CallCount(cache.log, sub.id);
    after := cache.Get(key);
  }

  /** Keys come back in the order they were stored. */
  method KeysInInsertionOrder(response: Response, details: Details) returns (keys: seq<string>)
    ensures keys == ["1", "2", "3"]
  {
    var cache := new CacheStore();
    cache.Set(CacheRequest("1", true), response, details);
    cache.Set(CacheRequest("2", true), response, details);
    cache.Set(CacheRequest("3", true), response, details);
    keys := cache.Keys();
  }

  /** Clear calls no revalidate listener and leaves the key empty, whether
      or not the earlier set stored anything. */
  method ClearEmitsNothing(key: string, enabled: bool, response: Response, details: Details)
    returns (calls: nat, after: Option<Entry>)
    ensures calls == 0
    ensures after == None
  {
    var cache := new CacheStore();
    var sub := cache.OnRevalidate(key);
    cache.Set(CacheRequest(key, enabled), response, details);
    cache.Clear();
    calls := CallCount(cache.log, sub.id);
    after := cache.Get(key);
  }

  /** Once unsubscribed, a data listener is not called by later sets. */
  method UnsubscribeStopsCalls(key: string, response: Response, details: Details)
    returns (calls: nat)
    ensures calls == 1
  {
    var cache := new CacheStore();
    var sub := cache.OnData(key);
    cache.Set(CacheRequest(key, true), response, details);
    assert cache.log == Notifications([sub.id], DataEmitted(key, Entry(response, details)));
    ghost var first := cache.log;
    cache.Unsubscribe(sub);
    assert cache.DataListenersOf(key) == [];
    cache.Set(CacheRequest(key, true), response, details);
    assert cache.log == first + [];
    NotifiedOnce([sub.id], DataEmitted(key, Entry(response, details)), sub.id);
    calls := CallCount(cache.log, sub.id);
  }

  /** A second write to a key replaces the first entry whole and keeps the
      key listed once. */
  method SetOverwrites(key: string, r1: Response, d1: Details, r2: Response, d2: Details)
    returns (after: Option<Entry>, keys: seq<string>)
    ensures after == Some(Entry(r2, d2))
    ensures keys == [key]
  {
    var cache := new CacheStore();
    cache.Set(CacheRequest(key, true), r1, d1);
    cache.Set(CacheRequest(key, true), r2, d2);
    after := cache.Get(key);
    keys := cache.Keys();
  }

  /** Deleting twice leaves the store as the first delete left it; revalidating
      a key nobody listens to still removes its entry. */
  method DeleteTwiceAndQuietRevalidate(key: string, other: string, response: Response, details: Details)
    returns (afterDelete: seq<string>, afterRevalidate: Option<Entry>, calls: nat)
    requires key != other
    ensures afterDelete == [other]
    ensures afterRevalidate == None
    ensures calls == 0
  {
    var cache := new CacheStore();
    cache.Set(CacheRequest(key, true), response, details);
    cache.Set(CacheRequest(other, true), response, details);
    cache.Delete(key);
    cache.Delete(key);
    afterDelete := cache.Keys();
    cache.Revalidate(other);
    afterRevalidate := cache.Get(other);
    calls := |cache.log|;
  }
}
