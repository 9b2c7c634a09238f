/**
 * The single-tier refresh-ahead cache of lib/pkg/sweet/simple.go. Its entries
 * have no usable instant: a present entry past its actual instant is always
 * served as stale, and only the backend's own expiry, set from the usable TTL,
 * ends its life. Providers report success as a flag (the `ValueProvider` of
 * lib/pkg/sweet/cache.go).
 */
module SweetCache {
  import opened Prelude
  import Backend
  import opened Freshness

  /** What a `ValueProvider` returns: success, the value and its two relative TTLs. */
  datatype Reply<V> = Reply(ok: bool, value: V, actualTTL: Duration, usableTTL: Duration)

  /** `CacheItem`: the value, the provider's success flag and the instant until which it is fresh. */
  datatype CacheItem<V> = CacheItem(value: V, ok: bool, actual: Time)

  type Store<K, V> = Backend.Store<K, Backend.Any<CacheItem<V>>>

  /** The observable state: the backend, the keys with a refresh scheduled, and the provider invocations so far. */
  datatype State<K, V> = State(store: Store<K, V>, pending: set<K>, calls: nat)

  datatype Served<K, V> = Served(state: State<K, V>, value: V, ok: bool)

  /** The backend read followed by the type assertion: a value of another type reads as absent. */
  function Lookup<K, V>(store: Store<K, V>, key: K, now: Time): (r: Option<CacheItem<V>>)
    ensures r.Some? ==> Backend.Get(store, key, now) == Some(Backend.Typed(r.value))
    ensures r.None? ==> Backend.Get(store, key, now) in {None, Some(Backend.Untyped)}
  {
    var got := Backend.Get(store, key, now);
    if got.Some? && got.value.Typed? then Some(got.value.item) else None
  }

  /** Fresh before `actual`; any other present entry is stale; only an absent entry is a miss. */
  function Decide<V>(found: Option<CacheItem<V>>, now: Time): Decision
  {
    if found.None? then Miss else if now < found.value.actual then Hit else Refresh
  }

  function ItemFor<V>(reply: Reply<V>, later: Time): CacheItem<V>
  {
    CacheItem(reply.value, reply.ok, later + reply.actualTTL)
  }

  /** The backend write of an update; the usable TTL becomes the backend TTL and is the only upper bound. */
  function Install<K, V>(store: Store<K, V>, key: K, reply: Reply<V>, later: Time): Store<K, V>
  {
    Backend.SetWithTTL(store, key, Backend.Typed(ItemFor(reply, later)), reply.usableTTL, later).0
  }

  /** `updateValueFromProvider`: one provider invocation, which also answers any refresh pending for the key. */
  function Updated<K, V>(st: State<K, V>, key: K, reply: Reply<V>, later: Time): State<K, V>
  {
    State(Install(st.store, key, reply, later), st.pending - {key}, st.calls + 1)
  }

  /** `GetOrProvide`. */
  function Provide<K, V>(st: State<K, V>, key: K, provider: K -> Reply<V>, now: Time, later: Time): Served<K, V>
  {
    var found := Lookup(st.store, key, now);
    match Decide(found, now)
    case Hit => Served(st, found.value.value, found.value.ok)
    case Refresh => Served(st.(pending := st.pending + {key}), found.value.value, found.value.ok)
    case Miss =>
      var reply := provider(key);
      Served(Updated(st, key, reply, later), reply.value, reply.ok)
  }

  /** `GetOrProvideAsync`. */
  function ProvideAsync<K, V>(st: State<K, V>, key: K, defaultValue: V, now: Time): Served<K, V>
  {
    var found := Lookup(st.store, key, now);
    match Decide(found, now)
    case Hit => Served(st, found.value.value, found.value.ok)
    case Refresh => Served(st.(pending := st.pending + {key}), found.value.value, found.value.ok)
    case Miss => Served(st.(pending := st.pending + {key}), defaultValue, false)
  }

  function Refreshed<K, V>(st: State<K, V>, key: K, provider: K -> Reply<V>, later: Time): State<K, V>
  {
    if key in st.pending then Updated(st, key, provider(key), later) else st
  }

  /** `Get`: any entry the backend still holds, whatever its actual instant. */
  function Read<K, V>(store: Store<K, V>, key: K, now: Time, zero: V): (V, bool)
  {
    var found := Lookup(store, key, now);
    if found.Some? then (found.value.value, found.value.ok) else (zero, false)
  }

  /**
   * The life of an entry written at `later`: fresh for `actualTTL`, then stale
   * until the backend lets it expire after a positive `usableTTL`, and stale
   * forever when `usableTTL` is 0.
   */
  lemma {:induction false} Timeline<K, V>(store: Store<K, V>, key: K, reply: Reply<V>, later: Time, e: Duration)
    requires 0 <= reply.usableTTL
    ensures var found := Lookup(Install(store, key, reply, later), key, later + e);
      var expired := 0 < reply.usableTTL <= e;
      && Decide(found, later + e) == (if expired then Miss else if e < reply.actualTTL then Hit else Refresh)
      && (!expired ==> found == Some(ItemFor(reply, later)))
  {
    Backend.GetAfterSetWithTTL(store, key, Backend.Typed(ItemFor(reply, later)), reply.usableTTL, later, key, later + e);
  }

  /** A reply with a negative usable TTL is discarded by the backend: an absent key stays absent. */
  lemma NegativeUsableLeavesAbsent<K, V>(store: Store<K, V>, key: K, reply: Reply<V>, later: Time, t: Time)
    requires reply.usableTTL < 0 && Lookup(store, key, t).None?
    ensures Lookup(Install(store, key, reply, later), key, t).None?
  {
  }

  /** Every joiner of a synchronous update receives the stored item's `(value, ok)`, which is the provider's. */
  lemma {:induction false} MissReturnsStoredItem<K, V>(st: State<K, V>, key: K, p: K -> Reply<V>, now: Time, later: Time)
    requires Decide(Lookup(st.store, key, now), now) == Miss && p(key).usableTTL >= 0
    ensures var r := Provide(st, key, p, now, later);
      var found := Lookup(r.state.store, key, later);
      && r.state.calls == st.calls + 1
      && found.Some? && (r.value, r.ok) == (found.value.value, found.value.ok) == (p(key).value, p(key).ok)
  {
    Timeline(st.store, key, p(key), later, 0);
  }

  /**
   * No upper bound in the cache itself: once past its actual instant, an
   * entry written with usable TTL 0 is served stale, with a refresh, at every
   * later reading, and the provider is never called synchronously for it.
   */
  lemma {:induction false} ZeroUsableServedStaleForever<K, V>(st: State<K, V>, key: K, p: K -> Reply<V>, q: K -> Reply<V>,
                                                             later: Time, e: Duration, later2: Time)
    requires p(key).usableTTL == 0 && p(key).actualTTL <= e
    ensures var s1 := Updated(st, key, p(key), later);
      Provide(s1, key, q, later + e, later2) == Served(s1.(pending := s1.pending + {key}), p(key).value, p(key).ok)
  {
    Timeline(st.store, key, p(key), later, e);
  }

  /** `Get` answers exactly what `GetOrProvide` serves from the cache, and misses only when it would call the provider. */
  lemma ReadAgreesWithProvide<K, V>(st: State<K, V>, key: K, p: K -> Reply<V>, now: Time, later: Time, zero: V)
    ensures var r := Provide(st, key, p, now, later);
      Read(st.store, key, now, zero) ==
        if Decide(Lookup(st.store, key, now), now) == Miss then (zero, false) else (r.value, r.ok)
  {
  }

  /** An asynchronous miss returns the default with `false` and schedules the update the synchronous call would run. */
  lemma AsyncMissThenRefresh<K, V>(st: State<K, V>, key: K, p: K -> Reply<V>, d: V, now: Time, later: Time)
    requires Decide(Lookup(st.store, key, now), now) == Miss
    ensures var a := ProvideAsync(st, key, d, now);
      && a.value == d && !a.ok && a.state.store == st.store && a.state.calls == st.calls
      && Refreshed(a.state, key, p, later) == Provide(st, key, p, now, later).state
  {
  }

  /** On a hit or a stale read the asynchronous call answers and acts exactly as the synchronous one. */
  lemma AsyncAgreesWhenCached<K, V>(st: State<K, V>, key: K, p: K -> Reply<V>, d: V, now: Time, later: Time)
    requires Decide(Lookup(st.store, key, now), now) != Miss
    ensures ProvideAsync(st, key, d, now) == Provide(st, key, p, now, later)
  {
  }

  class Cache<K(==), V> {
    var store: Store<K, V>
    var pending: set<K>
    var calls: nat
    /** Go's zero value of V, which `Get` returns on a miss. */
    const zero: V

    function Snapshot(): State<K, V>
      reads this
    {
      State(store, pending, calls)
    }

    /** `NewCache` over a backend that may already hold values. */
    constructor (back: Store<K, V>, zero: V)
      ensures Snapshot() == State(back, {}, 0) && this.zero == zero
    {
      store, pending, calls := back, {}, 0;
      this.zero := zero;
    }

    /** The part of `GetOrProvide` and `GetOrProvideAsync` before the update: serve a present entry. */
    method Serve(key: K, now: Time) returns (served: bool, v: V, ok: bool)
      modifies this
      ensures var d := Decide(Lookup(old(store), key, now), now);
        && (served <==> d != Miss)
        && (served ==> v == Lookup(old(store), key, now).value.value && ok == Lookup(old(store), key, now).value.ok)
        && Snapshot() == if d == Refresh then old(Snapshot()).(pending := old(pending) + {key}) else old(Snapshot())
    {
      served, v, ok := false, zero, false;
      var found := Lookup(store, key, now);
      if found.Some? {
        var item := found.value;
        if now < item.actual {
          return true, item.value, item.ok;
        }
        pending := pending + {key};
        return true, item.value, item.ok;
      }
    }

    method UpdateValueFromProvider(key: K, provider: K -> Reply<V>, later: Time) returns (v: V, ok: bool)
      modifies this
      ensures Snapshot() == Updated(old(Snapshot()), key, provider(key), later)
      ensures v == provider(key).value && ok == provider(key).ok
    {
      var reply := provider(key);
      calls := calls + 1;
      var item := ItemFor(reply, later);
      store := Backend.SetWithTTL(store, key, Backend.Typed(item), reply.usableTTL, later).0;
      pending := pending - {key};
      v, ok := item.value, item.ok;
    }

    method GetOrProvide(key: K, provider: K -> Reply<V>, now: Time, later: Time) returns (v: V, ok: bool)
      modifies this
      ensures Served(Snapshot(), v, ok) == Provide(old(Snapshot()), key, provider, now, later)
    {
      var served;
      served, v, ok := Serve(key, now);
      if !served {
        v, ok := UpdateValueFromProvider(key, provider, later);
      }
    }

    method GetOrProvideAsync(key: K, defaultValue: V, now: Time) returns (v: V, ok: bool)
      modifies this
      ensures Served(Snapshot(), v, ok) == ProvideAsync(old(Snapshot()), key, defaultValue, now)
    {
      var served;
      served, v, ok := Serve(key, now);
      if !served {
        pending := pending + {key};
        v, ok := defaultValue, false;
      }
    }

    /** The scheduled background update of `key`, run to completion. */
    method RunPending(key: K, provider: K -> Reply<V>, later: Time)
      modifies this
      ensures Snapshot() == Refreshed(old(Snapshot()), key, provider, later)
    {
      if key in pending {
        var _, _ := UpdateValueFromProvider(key, provider, later);
      }
    }

    method Get(key: K, now: Time) returns (v: V, ok: bool)
      ensures (v, ok) == Read(store, key, now, zero)
      ensures Lookup(store, key, now).Some? ==> v == Lookup(store, key, now).value.value
    {
      var found := Lookup(store, key, now);
      if found.Some? {
        return found.value.value, found.value.ok;
      }
      return zero, false;
    }

    method Remove(key: K)
      modifies this
      ensures Snapshot() == old(Snapshot()).(store := Backend.Remove(old(store), key))
    {
      store := Backend.Remove(store, key);
    }

    method Clear()
      modifies this
      ensures Snapshot() == old(Snapshot()).(store := map[])
    {
      store := map[];
    }
  }
}
