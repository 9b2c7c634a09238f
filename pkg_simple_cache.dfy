/**
 * The single-tier refresh-ahead cache of pkg/simple/cache.go. It differs from
 * lib/pkg/simple/cache.go in that an entry keeps the provider's error itself,
 * the read operations return that error rather than a success flag, and `Get`
 * returns a found flag and the error separately.
 */
module PkgSimpleCache {
  import opened Prelude
  import Backend
  import opened Providers
  import opened Freshness

  /** `cacheItem`: the value, the provider's error (None for nil), and the instants until which it is fresh and usable. */
  datatype CacheItem<V> = CacheItem(value: V, err: Option<Error>, actual: Time, usable: Time)

  type Store<K, V> = Backend.Store<K, Backend.Any<CacheItem<V>>>

  /** The observable state: the backend, the keys with a refresh scheduled, and the provider invocations so far. */
  datatype State<K, V> = State(store: Store<K, V>, pending: set<K>, calls: nat)

  /** An answer `(value, error)` together with the state it leaves behind. */
  datatype Served<K, V> = Served(state: State<K, V>, value: V, err: Option<Error>)

  /** The backend read followed by the type assertion: a value of another type reads as absent. */
  function Lookup<K, V>(store: Store<K, V>, key: K, now: Time): (r: Option<CacheItem<V>>)
    ensures r.Some? ==> Backend.Get(store, key, now) == Some(Backend.Typed(r.value))
    ensures r.None? ==> Backend.Get(store, key, now) in {None, Some(Backend.Untyped)}
  {
    var got := Backend.Get(store, key, now);
    if got.Some? && got.value.Typed? then Some(got.value.item) else None
  }

  function Decide<V>(found: Option<CacheItem<V>>, now: Time): Decision
  {
    if found.None? then Miss else Classify(found.value.actual, found.value.usable, now)
  }

  /** The entry built from a reply, keeping its error, anchored at the clock reading `later`. */
  function ItemFor<V>(reply: Reply<V>, later: Time): CacheItem<V>
  {
    CacheItem(reply.value, reply.err, later + reply.actualTTL, later + reply.usableTTL)
  }

  function Install<K, V>(store: Store<K, V>, key: K, reply: Reply<V>, later: Time): Store<K, V>
  {
    Backend.SetWithTTL(store, key, Backend.Typed(ItemFor(reply, later)), reply.usableTTL, later).0
  }

  /** `updateValueFromProvider`: one provider invocation, which also answers any refresh pending for the key. */
  function Updated<K, V>(st: State<K, V>, key: K, reply: Reply<V>, later: Time): State<K, V>
  {
    State(Install(st.store, key, reply, later), st.pending - {key}, st.calls + 1)
  }

  /** `GetOrProvide`. */
  function Provide<K, V>(st: State<K, V>, key: K, provider: K -> Reply<V>, now: Time, later: Time): Served<K, V>
  {
    var found := Lookup(st.store, key, now);
    match Decide(found, now)
    case Hit => Served(st, found.value.value, found.value.err)
    case Refresh => Served(st.(pending := st.pending + {key}), found.value.value, found.value.err)
    case Miss =>
      var reply := provider(key);
      Served(Updated(st, key, reply, later), reply.value, reply.err)
  }

  /** `GetOrProvideAsync`: on a miss the update is scheduled and the default comes back with a nil error. */
  function ProvideAsync<K, V>(st: State<K, V>, key: K, defaultValue: V, now: Time): Served<K, V>
  {
    var found := Lookup(st.store, key, now);
    match Decide(found, now)
    case Hit => Served(st, found.value.value, found.value.err)
    case Refresh => Served(st.(pending := st.pending + {key}), found.value.value, found.value.err)
    case Miss => Served(st.(pending := st.pending + {key}), defaultValue, None)
  }

  function Refreshed<K, V>(st: State<K, V>, key: K, provider: K -> Reply<V>, later: Time): State<K, V>
  {
    if key in st.pending then Updated(st, key, provider(key), later) else st
  }

  /** `Get`: `(value, true, error)` while the entry is usable, `(zero, false, nil)` otherwise. */
  function Read<K, V>(store: Store<K, V>, key: K, now: Time, zero: V): (V, bool, Option<Error>)
  {
    var found := Lookup(store, key, now);
    if found.Some? && now < found.value.usable then (found.value.value, true, found.value.err) else (zero, false, None)
  }

  /** Written at `later` with 0 <= actualTTL <= usableTTL, an entry is fresh, then stale, then a miss, and keeps the error. */
  lemma {:induction false} Timeline<K, V>(store: Store<K, V>, key: K, reply: Reply<V>, later: Time, e: Duration)
    requires 0 <= reply.usableTTL && reply.actualTTL <= reply.usableTTL
    ensures var found := Lookup(Install(store, key, reply, later), key, later + e);
      && Decide(found, later + e) == (if e < reply.actualTTL then Hit else if e < reply.usableTTL then Refresh else Miss)
      && (e < reply.usableTTL ==> found.Some? && found.value.err == reply.err && found.value.value == reply.value)
  {
    Backend.GetAfterSetWithTTL(store, key, Backend.Typed(ItemFor(reply, later)), reply.usableTTL, later, key, later + e);
  }

  /**
   * The synchronous path returns the provider's own `(value, error)`, and a
   * call within the actual TTL returns the same pair verbatim with no provider
   * invocation and no write.
   */
  lemma {:induction false} FreshAfterMiss<K, V>(st: State<K, V>, key: K, p: K -> Reply<V>, q: K -> Reply<V>,
                                                now: Time, later: Time, e: Duration, later2: Time)
    requires Decide(Lookup(st.store, key, now), now) == Miss
    requires 0 <= e < p(key).actualTTL <= p(key).usableTTL
    ensures var first := Provide(st, key, p, now, later);
      && first.value == p(key).value && first.err == p(key).err
      && Provide(first.state, key, q, later + e, later2) == first
  {
    Timeline(st.store, key, p(key), later, e);
  }

  /** A read in the grace window returns the stored pair and schedules the key's refresh once. */
  lemma {:induction false} StaleReadSchedulesRefresh<K, V>(st: State<K, V>, key: K, p: K -> Reply<V>, q: K -> Reply<V>,
                                                           later: Time, e: Duration, later2: Time)
    requires 0 <= p(key).actualTTL <= e < p(key).usableTTL
    ensures var s1 := Updated(st, key, p(key), later);
      var r := Provide(s1, key, q, later + e, later2);
      && r.value == p(key).value && r.err == p(key).err
      && r.state == s1.(pending := s1.pending + {key})
      && Provide(r.state, key, q, later + e, later2) == r
  {
    Timeline(st.store, key, p(key), later, e);
  }

  /** An asynchronous miss returns the default with a nil error, not a failure, and only schedules the update. */
  lemma AsyncMissReturnsNilError<K, V>(st: State<K, V>, key: K, p: K -> Reply<V>, d: V, now: Time, later: Time)
    requires Decide(Lookup(st.store, key, now), now) == Miss
    ensures var a := ProvideAsync(st, key, d, now);
      && a.value == d && a.err.None? && a.state.store == st.store && a.state.calls == st.calls
      && Refreshed(a.state, key, p, later) == Provide(st, key, p, now, later).state
  {
  }

  /** On a hit or a stale read the asynchronous call answers and acts exactly as the synchronous one. */
  lemma AsyncAgreesWhenCached<K, V>(st: State<K, V>, key: K, p: K -> Reply<V>, d: V, now: Time, later: Time)
    requires Decide(Lookup(st.store, key, now), now) != Miss
    ensures ProvideAsync(st, key, d, now) == Provide(st, key, p, now, later)
  {
  }

  /**
   * Within the usable window `Get` reports `true` even for a cached failure,
   * returning the failure as its error; it never reports `true` after it.
   */
  lemma {:induction false} ReadReportsCachedFailure<K, V>(store: Store<K, V>, key: K, reply: Reply<V>, later: Time, e: Duration, zero: V)
    requires 0 <= reply.usableTTL && reply.actualTTL <= reply.usableTTL
    ensures Read(Install(store, key, reply, later), key, later + e, zero) ==
      if e < reply.usableTTL then (reply.value, true, reply.err) else (zero, false, None)
  {
    Timeline(store, key, reply, later, e);
  }

  class Cache<K(==), V> {
    var store: Store<K, V>
    var pending: set<K>
    var calls: nat
    /** Go's zero value of V, which `Get` returns on a miss. */
    const zero: V

    function Snapshot(): State<K, V>
      reads this
    {
      State(store, pending, calls)
    }

    /** `NewCache` over a backend that may already hold values. */
    constructor (back: Store<K, V>, zero: V)
      ensures Snapshot() == State(back, {}, 0) && this.zero == zero
    {
      store, pending, calls := back, {}, 0;
      this.zero := zero;
    }

    /** The part of `GetOrProvide` and `GetOrProvideAsync` before the update: serve a fresh or stale entry. */
    method Serve(key: K, now: Time) returns (served: bool, v: V, err: Option<Error>)
      modifies this
      ensures var d := Decide(Lookup(old(store), key, now), now);
        && (served <==> d != Miss)
        && (served ==> v == Lookup(old(store), key, now).value.value && err == Lookup(old(store), key, now).value.err)
        && Snapshot() == if d == Refresh then old(Snapshot()).(pending := old(pending) + {key}) else old(Snapshot())
    {
      served, v, err := false, zero, None;
      var found := Lookup(store, key, now);
      if found.Some? {
        var item := found.value;
        if now < item.actual {
          return true, item.value, item.err;
        }
        if now < item.usable {
          pending := pending + {key};
          return true, item.value, item.err;
        }
      }
    }

    method UpdateValueFromProvider(key: K, provider: K -> Reply<V>, later: Time) returns (v: V, err: Option<Error>)
      modifies this
      ensures Snapshot() == Updated(old(Snapshot()), key, provider(key), later)
      ensures v == provider(key).value && err == provider(key).err
    {
      var reply := provider(key);
      calls := calls + 1;
      store := Backend.SetWithTTL(store, key, Backend.Typed(ItemFor(reply, later)), reply.usableTTL, later).0;
      pending := pending - {key};
      v, err := reply.value, reply.err;
    }

    method GetOrProvide(key: K, provider: K -> Reply<V>, now: Time, later: Time) returns (v: V, err: Option<Error>)
      modifies this
      ensures Served(Snapshot(), v, err) == Provide(old(Snapshot()), key, provider, now, later)
    {
      var served;
      served, v, err := Serve(key, now);
      if !served {
        v, err := UpdateValueFromProvider(key, provider, later);
      }
    }

    method GetOrProvideAsync(key: K, defaultValue: V, now: Time) returns (v: V, err: Option<Error>)
      modifies this
      ensures Served(Snapshot(), v, err) == ProvideAsync(old(Snapshot()), key, defaultValue, now)
    {
      var served;
      served, v, err := Serve(key, now);
      if !served {
        pending := pending + {key};
        v, err := defaultValue, None;
      }
    }

    /** The scheduled background update of `key`, run to completion. */
    method RunPending(key: K, provider: K -> Reply<V>, later: Time)
      modifies this
      ensures Snapshot() == Refreshed(old(Snapshot()), key, provider, later)
    {
      if key in pending {
        var _, _ := UpdateValueFromProvider(key, provider, later);
      }
    }

    method Get(key: K, now: Time) returns (v: V, found: bool, err: Option<Error>)
      ensures (v, found, err) == Read(store, key, now, zero)
      ensures found <==> Lookup(store, key, now).Some? && now < Lookup(store, key, now).value.usable
    {
      var item := Lookup(store, key, now);
      if item.Some? && now < item.value.usable {
        return item.value.value, true, item.value.err;
      }
      return zero, false, None;
    }

    method Remove(key: K)
      modifies this
      ensures Snapshot() == old(Snapshot()).(store := Backend.Remove(old(store), key))
    {
      store := Backend.Remove(store, key);
    }

    method Clear()
      modifies this
      ensures Snapshot() == old(Snapshot()).(store := map[])
    {
      store := map[];
    }
  }
}
