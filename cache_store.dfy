/** The cache store: a keyed map from cache key to entry that remembers the
    order in which keys were first stored, with per-key `onData` and
    `onRevalidate` listener lists. A listener is identified by the handle its
    subscription returned; calling it is recorded by appending an Event to
    the store's log, so the number of times a listener was called is the
    number of its events in the log. */
module Cache {
  import opened Values

  /** The request fields the store reads. */
  datatype CacheRequest = CacheRequest(cacheKey: string, cacheEnabled: bool)

  /** What the store keeps for a key: the response tuple and its details. */
  datatype Entry = Entry(data: Response, details: Details)

  type ListenerId = nat

  datatype ListenerKind = DataListener | RevalidateListener

  /** What `onData`/`onRevalidate` return; passing it to Unsubscribe is
      calling the returned unsubscribe function. */
  datatype Subscription = Subscription(kind: ListenerKind, key: string, id: ListenerId)

  /** The payload of one emission. */
  datatype Emitted = DataEmitted(key: string, entry: Entry) | RevalidateEmitted(key: string)

  /** One listener called with one payload. */
  datatype Event = Event(listener: ListenerId, emitted: Emitted)

  predicate NoDup<T(==)>(s: seq<T>) {
    forall i, j :: 0 <= i < j < |s| ==> s[i] != s[j]
  }

  /** `s` without `x`, the rest in its order. */
  function Remove<T(==,!new)>(s: seq<T>, x: T): (r: seq<T>)
    ensures forall y :: y in r <==> y in s && y != x
    ensures NoDup(s) ==> NoDup(r)
    ensures |r| <= |s|
  {
    if s == [] then []
    else
      var rest := Remove(s[1..], x);
      assert forall y :: y in s <==> y == s[0] || y in s[1..];
      if s[0] == x then rest
      else
        assert NoDup(s) ==> s[0] !in s[1..];
        [s[0]] + rest
  }

  /** The events of calling each listener of `ids` once with `emitted`, in
      the order of `ids`. */
  function Notifications(ids: seq<ListenerId>, emitted: Emitted): (evs: seq<Event>)
    ensures |evs| == |ids|
    ensures forall i :: 0 <= i < |ids| ==> evs[i] == Event(ids[i], emitted)
  {
    if ids == [] then []
    else Notifications(ids[..|ids| - 1], emitted) + [Event(ids[|ids| - 1], emitted)]
  }

  /** How many times the log shows listener `id` called. */
  function CallCount(log: seq<Event>, id: ListenerId): nat {
    if log == [] then 0
    else (if log[0].listener == id then 1 else 0) + CallCount(log[1..], id)
  }

  lemma {:induction false} CallCountAppend(a: seq<Event>, b: seq<Event>, id: ListenerId)
    ensures CallCount(a + b, id) == CallCount(a, id) + CallCount(b, id)
  {
    if a != [] {
      assert (a + b)[0] == a[0];
      assert (a + b)[1..] == a[1..] + b;
      CallCountAppend(a[1..], b, id);
    } else {
      assert a + b == b;
    }
  }

  /** One emission calls every listener of a duplicate-free list exactly
      once and no other listener. */
  lemma {:induction false} NotifiedOnce(ids: seq<ListenerId>, emitted: Emitted, id: ListenerId)
    requires NoDup(ids)
    ensures CallCount(Notifications(ids, emitted), id) == if id in ids then 1 else 0
  {
    if ids != [] {
      var init := ids[..|ids| - 1];
      var last := ids[|ids| - 1];
      assert ids == init + [last];
      assert NoDup(init);
      assert last !in init;
      NotifiedOnce(init, emitted, id);
      CallCountAppend(Notifications(init, emitted), [Event(last, emitted)], id);
      assert CallCount([Event(last, emitted)], id) == if last == id then 1 else 0 by {
        assert [Event(last, emitted)][1..] == [];
      }
    }
  }

  /** The listeners of `key`, in registration order. */
  function ListenersOf(listeners: map<string, seq<ListenerId>>, key: string): seq<ListenerId> {
    if key in listeners then listeners[key] else []
  }

  /** No key lists a listener twice, and every handle is below `bound`. */
  ghost predicate ListenersWellFormed(listeners: map<string, seq<ListenerId>>, bound: nat) {
    forall k :: k in listeners ==>
      NoDup(listeners[k]) && forall id :: id in listeners[k] ==> id < bound
  }

  /** A subscription with a fresh handle keeps the listener lists well formed. */
  lemma AddListenerKeepsWellFormed(listeners: map<string, seq<ListenerId>>, key: string, n: nat)
    requires ListenersWellFormed(listeners, n)
    ensures ListenersWellFormed(listeners[key := ListenersOf(listeners, key) + [n]], n + 1)
  {
    var ls := ListenersOf(listeners, key);
    assert n !in ls;
    assert NoDup(ls + [n]) by {
      forall i, j | 0 <= i < j < |ls + [n]| ensures (ls + [n])[i] != (ls + [n])[j] {
        if j == |ls| { assert (ls + [n])[i] == ls[i]; }
      }
    }
  }

  /** An emission to a key's listeners calls each registered listener of that
      key exactly once and every other listener never. */
  lemma EachListenerCalledOnce(listeners: map<string, seq<ListenerId>>, bound: nat, key: string,
                               emitted: Emitted, id: ListenerId)
    requires ListenersWellFormed(listeners, bound)
    ensures CallCount(Notifications(ListenersOf(listeners, key), emitted), id) ==
      if id in ListenersOf(listeners, key) then 1 else 0
  {
    NotifiedOnce(ListenersOf(listeners, key), emitted, id);
  }

  class CacheStore {
    var storage: map<string, Entry>
    /** The stored keys in the order they were first stored. */
    var order: seq<string>
    var dataListeners: map<string, seq<ListenerId>>
    var revalidateListeners: map<string, seq<ListenerId>>
    /** The handle the next subscription receives. */
    var nextListener: nat
    /** Every listener call so far, oldest first. */
    var log: seq<Event>

    ghost predicate Valid()
      reads this
    {
      && NoDup(order)
      && (forall k :: k in storage <==> k in order)
      && ListenersWellFormed(dataListeners, nextListener)
      && ListenersWellFormed(revalidateListeners, nextListener)
    }

    constructor ()
      ensures Valid()
      ensures storage == map[] && order == [] && log == []
      ensures dataListeners == map[] && revalidateListeners == map[] && nextListener == 0
    {
      storage := map[];
      order := [];
      dataListeners := map[];
      revalidateListeners := map[];
      nextListener := 0;
      log := [];
    }

    /** get: the entry stored under `key`, if any. */
    function Get(key: string): (r: Option<Entry>)
      reads this
      requires Valid()
      ensures r.Some? <==> key in Keys()
      ensures r.Some? ==> r == Some(storage[key])
    {
      if key in storage then Some(storage[key]) else None
    }

    /** keys: every stored key once, in insertion order. */
    function Keys(): (ks: seq<string>)
      reads this
      requires Valid()
      ensures ks == order
      ensures NoDup(ks)
      ensures forall k :: k in ks <==> k in storage
    {
      order
    }

    function DataListenersOf(key: string): seq<ListenerId>
      reads this
    {
      ListenersOf(dataListeners, key)
    }

    function RevalidateListenersOf(key: string): seq<ListenerId>
      reads this
    {
      ListenersOf(revalidateListeners, key)
    }

    /** Calls each listener of `ids` once with `emitted`, in order. The list
        is a snapshot taken before the first call. */
    method Emit(ids: seq<ListenerId>, emitted: Emitted)
      modifies this`log
      ensures log == old(log) + Notifications(ids, emitted)
    {
      var i := 0;
      while i < |ids|
        invariant 0 <= i <= |ids|
        invariant log == old(log) + Notifications(ids[..i], emitted)
      {
        assert ids[..i + 1][..i] == ids[..i];
        log := log + [Event(ids[i], emitted)];
        i := i + 1;
      }
      assert ids[..i] == ids;
    }

    /** events.onData: registers a data listener for `key`, after the ones
        already registered. */
    method OnData(key: string) returns (sub: Subscription)
      requires Valid()
      modifies this
      ensures Valid()
      ensures sub == Subscription(DataListener, key, old(nextListener))
      ensures dataListeners == old(dataListeners)[key := old(DataListenersOf(key)) + [sub.id]]
      ensures nextListener == old(nextListener) + 1
      ensures storage == old(storage) && order == old(order) && log == old(log)
      ensures revalidateListeners == old(revalidateListeners)
    {
      AddListenerKeepsWellFormed(dataListeners, key, nextListener);
      sub := Subscription(DataListener, key, nextListener);
      dataListeners := dataListeners[key := DataListenersOf(key) + [nextListener]];
      nextListener := nextListener + 1;
    }

    /** events.onRevalidate: registers a revalidate listener for `key`. */
    method OnRevalidate(key: string) returns (sub: Subscription)
      requires Valid()
      modifies this
      ensures Valid()
      ensures sub == Subscription(RevalidateListener, key, old(nextListener))
      ensures revalidateListeners == old(revalidateListeners)[key := old(RevalidateListenersOf(key)) + [sub.id]]
      ensures nextListener == old(nextListener) + 1
      ensures storage == old(storage) && order == old(order) && log == old(log)
      ensures dataListeners == old(dataListeners)
    {
      AddListenerKeepsWellFormed(revalidateListeners, key, nextListener);
      sub := Subscription(RevalidateListener, key, nextListener);
      revalidateListeners := revalidateListeners[key := RevalidateListenersOf(key) + [nextListener]];
      nextListener := nextListener + 1;
    }

    /** The unsubscribe function a subscription returned: the listener is
        dropped from its key's list; the others keep their order. */
    method Unsubscribe(sub: Subscription)
      requires Valid()
      modifies this
      ensures Valid()
      ensures sub.kind == DataListener && sub.key in old(dataListeners) ==>
        dataListeners == old(dataListeners)[sub.key := Remove(old(dataListeners)[sub.key], sub.id)]
      ensures sub.kind == RevalidateListener && sub.key in old(revalidateListeners) ==>
        revalidateListeners == old(revalidateListeners)[sub.key := Remove(old(revalidateListeners)[sub.key], sub.id)]
      ensures sub.kind == RevalidateListener || sub.key !in old(dataListeners) ==> dataListeners == old(dataListeners)
      ensures sub.kind == DataListener || sub.key !in old(revalidateListeners) ==>
        revalidateListeners == old(revalidateListeners)
      ensures storage == old(storage) && order == old(order) && log == old(log)
      ensures nextListener == old(nextListener)
    {
      if sub.kind == DataListener && sub.key in dataListeners {
        dataListeners := dataListeners[sub.key := Remove(dataListeners[sub.key], sub.id)];
      } else if sub.kind == RevalidateListener && sub.key in revalidateListeners {
        revalidateListeners := revalidateListeners[sub.key := Remove(revalidateListeners[sub.key], sub.id)];
      }
    }

    /** set: calls the key's data listeners with the new entry; stores the
        entry only when the request has caching enabled. A key stored again
        keeps its place in the key order. */
    method Set(request: CacheRequest, response: Response, details: Details)
      requires Valid()
      modifies this
      ensures Valid()
      ensures var entry := Entry(response, details);
        log == old(log) + Notifications(old(DataListenersOf(request.cacheKey)), DataEmitted(request.cacheKey, entry))
      ensures forall id ::
                CallCount(log, id) == old(CallCount(log, id)) + (if id in old(DataListenersOf(request.cacheKey)) then 1 else 0)
      ensures request.cacheEnabled ==> storage == old(storage)[request.cacheKey := Entry(response, details)]
      ensures request.cacheEnabled && request.cacheKey !in old(storage) ==> order == old(order) + [request.cacheKey]
      ensures request.cacheEnabled && request.cacheKey in old(storage) ==> order == old(order)
      ensures !request.cacheEnabled ==> storage == old(storage) && order == old(order)
      ensures dataListeners == old(dataListeners) && revalidateListeners == old(revalidateListeners)
      ensures nextListener == old(nextListener)
    {
      var key := request.cacheKey;
      var entry := Entry(response, details);
      if request.cacheEnabled {
        if key !in storage {
          order := order + [key];
        }
        storage := storage[key := entry];
      }
      Emit(DataListenersOf(key), DataEmitted(key, entry));
      forall id
        ensures CallCount(log, id) ==
          old(CallCount(log, id)) + (if id in old(DataListenersOf(key)) then 1 else 0)
      {
        CallCountAppend(old(log), Notifications(old(DataListenersOf(key)), DataEmitted(key, entry)), id);
        EachListenerCalledOnce(old(dataListeners), old(nextListener), key, DataEmitted(key, entry), id);
      }
    }

    /** delete: drops the entry and its key, calling no listener. */
    method Delete(key: string)
      requires Valid()
      modifies this
      ensures Valid()
      ensures storage == old(storage) - {key}
      ensures order == Remove(old(order), key)
      ensures log == old(log)
      ensures dataListeners == old(dataListeners) && revalidateListeners == old(revalidateListeners)
      ensures nextListener == old(nextListener)
    {
      storage := storage - {key};
      order := Remove(order, key);
    }

    /** revalidate: drops the entry and its key, then calls the key's
        revalidate listeners. */
    method Revalidate(key: string)
      requires Valid()
      modifies this
      ensures Valid()
      ensures storage == old(storage) - {key}
      ensures order == Remove(old(order), key)
      ensures log == old(log) + Notifications(old(RevalidateListenersOf(key)), RevalidateEmitted(key))
      ensures forall id ::
                CallCount(log, id) == old(CallCount(log, id)) + (if id in old(RevalidateListenersOf(key)) then 1 else 0)
      ensures dataListeners == old(dataListeners) && revalidateListeners == old(revalidateListeners)
      ensures nextListener == old(nextListener)
    {
      storage := storage - {key};
      order := Remove(order, key);
      Emit(RevalidateListenersOf(key), RevalidateEmitted(key));
      forall id
        ensures CallCount(log, id) ==
          old(CallCount(log, id)) + (if id in old(RevalidateListenersOf(key)) then 1 else 0)
      {
        CallCountAppend(old(log), Notifications(old(RevalidateListenersOf(key)), RevalidateEmitted(key)), id);
        EachListenerCalledOnce(old(revalidateListeners), old(nextListener), key, RevalidateEmitted(key), id);
      }
    }

    /** clear: drops every entry and calls no listener. */
    method Clear()
      requires Valid()
      modifies this
      ensures Valid()
      ensures storage == map[] && order == []
      ensures log == old(log)
      ensures dataListeners == old(dataListeners) && revalidateListeners == old(revalidateListeners)
      ensures nextListener == old(nextListener)
    {
      storage := map[];
      order := [];
    }
  }
}
