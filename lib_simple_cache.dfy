/**
 * The single-tier refresh-ahead cache of lib/pkg/simple/cache.go, whose
 * entries record success as a boolean `ok`.
 *
 * The pure functions of this module are the specification: they say, for a
 * state of the cache (backend contents, keys with a scheduled background
 * refresh, number of provider invocations), what each operation answers and
 * what the next state is. The class `Cache` holds that state in fields and
 * its methods are proved against these functions.
 */
module LibSimpleCache {
  import opened Prelude
  import Backend
  import opened Providers
  import opened Freshness

  /** `CacheItem`: the value, whether the provider succeeded, and the instants until which it is fresh and usable. */
  datatype CacheItem<V> = CacheItem(value: V, ok: bool, actual: Time, usable: Time)

  type Store<K, V> = Backend.Store<K, Backend.Any<CacheItem<V>>>

  /** The observable state: the backend, the keys with a refresh scheduled, and the provider invocations so far. */
  datatype State<K, V> = State(store: Store<K, V>, pending: set<K>, calls: nat)

  /** An answer together with the state it leaves behind. */
  datatype Served<K, V> = Served(state: State<K, V>, value: V, ok: bool)

  /** The backend read followed by the type assertion: a value of another type reads as absent. */
  function Lookup<K, V>(store: Store<K, V>, key: K, now: Time): (r: Option<CacheItem<V>>)
    ensures r.Some? ==> Backend.Get(store, key, now) == Some(Backend.Typed(r.value))
    ensures r.None? ==> Backend.Get(store, key, now) in {None, Some(Backend.Untyped)}
  {
    var got := Backend.Get(store, key, now);
    if got.Some? && got.value.Typed? then Some(got.value.item) else None
  }

  /** What a read does with what it found: an absent entry is a miss. */
  function Decide<V>(found: Option<CacheItem<V>>, now: Time): Decision
  {
    if found.None? then Miss else Classify(found.value.actual, found.value.usable, now)
  }

  /** The entry built from a reply, anchored at the clock reading `later` taken after the provider returned. */
  function ItemFor<V>(reply: Reply<V>, later: Time): CacheItem<V>
  {
    CacheItem(reply.value, reply.err.None?, later + reply.actualTTL, later + reply.usableTTL)
  }

  /** The backend write of an update: the entry, with the usable TTL as the backend TTL. */
  function Install<K, V>(store: Store<K, V>, key: K, reply: Reply<V>, later: Time): Store<K, V>
  {
    Backend.SetWithTTL(store, key, Backend.Typed(ItemFor(reply, later)), reply.usableTTL, later).0
  }

  /**
   * `updateValueFromProvider`: one flight of the key's single-flight group.
   * The provider is invoked once, its reply stored, and any refresh pending
   * for the key is answered by this same flight.
   */
  function Updated<K, V>(st: State<K, V>, key: K, reply: Reply<V>, later: Time): State<K, V>
  {
    State(Install(st.store, key, reply, later), st.pending - {key}, st.calls + 1)
  }

  /** `GetOrProvide`. */
  function Provide<K, V>(st: State<K, V>, key: K, provider: K -> Reply<V>, now: Time, later: Time): Served<K, V>
  {
    var found := Lookup(st.store, key, now);
    match Decide(found, now)
    case Hit => Served(st, found.value.value, found.value.ok)
    case Refresh => Served(st.(pending := st.pending + {key}), found.value.value, found.value.ok)
    case Miss =>
      var reply := provider(key);
      Served(Updated(st, key, reply, later), reply.value, reply.err.None?)
  }

  /** `GetOrProvideAsync`: on a miss the update is only scheduled and the default is returned. */
  function ProvideAsync<K, V>(st: State<K, V>, key: K, defaultValue: V, now: Time): Served<K, V>
  {
    var found := Lookup(st.store, key, now);
    match Decide(found, now)
    case Hit => Served(st, found.value.value, found.value.ok)
    case Refresh => Served(st.(pending := st.pending + {key}), found.value.value, found.value.ok)
    case Miss => Served(st.(pending := st.pending + {key}), defaultValue, false)
  }

  /** The background refresh of `key`, if one is scheduled, run with `provider`. */
  function Refreshed<K, V>(st: State<K, V>, key: K, provider: K -> Reply<V>, later: Time): State<K, V>
  {
    if key in st.pending then Updated(st, key, provider(key), later) else st
  }

  /** `Get`: the entry while it is usable, otherwise Go's zero value and false. */
  function Read<K, V>(store: Store<K, V>, key: K, now: Time, zero: V): (V, bool)
  {
    var found := Lookup(store, key, now);
    if found.Some? && now < found.value.usable then (found.value.value, found.value.ok) else (zero, false)
  }

  /**
   * The life of an entry written at `later` with TTLs satisfying
   * 0 <= actualTTL <= usableTTL: fresh for `actualTTL`, then stale but usable
   * until `usableTTL`, then a miss. The entry found is the one written.
   */
  lemma {:induction false} Timeline<K, V>(store: Store<K, V>, key: K, reply: Reply<V>, later: Time, e: Duration)
    requires 0 <= reply.usableTTL && reply.actualTTL <= reply.usableTTL
    ensures var found := Lookup(Install(store, key, reply, later), key, later + e);
      && Decide(found, later + e) == (if e < reply.actualTTL then Hit else if e < reply.usableTTL then Refresh else Miss)
      && (e < reply.usableTTL ==> found == Some(ItemFor(reply, later)))
  {
    Backend.GetAfterSetWithTTL(store, key, Backend.Typed(ItemFor(reply, later)), reply.usableTTL, later, key, later + e);
  }

  /** An update with a negative usable TTL is returned to the caller but leaves the backend as it was. */
  lemma NegativeUsableNotStored<K, V>(st: State<K, V>, key: K, reply: Reply<V>, later: Time)
    requires reply.usableTTL < 0
    ensures Updated(st, key, reply, later).store == st.store
  {
  }

  /**
   * Fresh read and negative caching: after a miss at `now` is answered by the
   * provider, a second call within the actual TTL returns the same value and
   * outcome (a failure included), changes nothing and invokes no provider.
   */
  lemma {:induction false} FreshAfterMiss<K, V>(st: State<K, V>, key: K, p: K -> Reply<V>, q: K -> Reply<V>,
                                                now: Time, later: Time, e: Duration, later2: Time)
    requires Decide(Lookup(st.store, key, now), now) == Miss
    requires 0 <= e < p(key).actualTTL <= p(key).usableTTL
    ensures var first := Provide(st, key, p, now, later);
      && first.ok == p(key).err.None?
      && Provide(first.state, key, q, later + e, later2) == first
  {
    Timeline(st.store, key, p(key), later, e);
  }

  /**
   * Stale-refresh: a read in the grace window returns the old value and
   * schedules one refresh; a second stale read joins it; running the refresh
   * costs exactly one provider invocation and stores its reply.
   */
  lemma {:induction false} StaleReadsShareOneRefresh<K, V>(st: State<K, V>, key: K, p: K -> Reply<V>, q: K -> Reply<V>,
                                                           later: Time, e: Duration, later2: Time)
    requires 0 <= p(key).actualTTL <= e < p(key).usableTTL
    ensures var s1 := Updated(st, key, p(key), later);
      var r1 := Provide(s1, key, q, later + e, later2);
      var r2 := Provide(r1.state, key, q, later + e, later2);
      var s3 := Refreshed(r2.state, key, q, later2);
      && r1.value == r2.value == p(key).value && r1.ok == r2.ok == p(key).err.None?
      && r2.state.pending == s1.pending + {key}
      && s3.calls == s1.calls + 1
      && s3.store == Install(s1.store, key, q(key), later2)
      && Refreshed(s3, key, q, later2) == s3
  {
    Timeline(st.store, key, p(key), later, e);
  }

  /** Past the usable TTL the provider is asked again, synchronously. */
  lemma {:induction false} RetryAfterUsable<K, V>(st: State<K, V>, key: K, p: K -> Reply<V>, q: K -> Reply<V>,
                                                  later: Time, e: Duration, later2: Time)
    requires p(key).actualTTL <= p(key).usableTTL <= e && 0 <= p(key).usableTTL
    ensures var s1 := Updated(st, key, p(key), later);
      Provide(s1, key, q, later + e, later2) == Served(Updated(s1, key, q(key), later2), q(key).value, q(key).err.None?)
  {
    Timeline(st.store, key, p(key), later, e);
  }

  /**
   * Coalescing with a scheduled refresh: a synchronous miss on a key whose
   * refresh is pending joins it, so the pending refresh has nothing left to do.
   */
  lemma SyncMissAbsorbsRefresh<K, V>(st: State<K, V>, key: K, p: K -> Reply<V>, q: K -> Reply<V>, now: Time, later: Time, later2: Time)
    requires Decide(Lookup(st.store, key, now), now) == Miss
    ensures var r := Provide(st, key, p, now, later);
      r.state.calls == st.calls + 1 && Refreshed(r.state, key, q, later2) == r.state
  {
  }

  /** An asynchronous miss followed by its background refresh ends where the synchronous call would. */
  lemma AsyncMissThenRefresh<K, V>(st: State<K, V>, key: K, p: K -> Reply<V>, d: V, now: Time, later: Time)
    requires Decide(Lookup(st.store, key, now), now) == Miss
    ensures var a := ProvideAsync(st, key, d, now);
      && a.value == d && !a.ok && a.state.store == st.store && a.state.calls == st.calls
      && Refreshed(a.state, key, p, later) == Provide(st, key, p, now, later).state
  {
  }

  /** On a hit or a stale read the asynchronous call answers and acts exactly as the synchronous one. */
  lemma AsyncAgreesWhenCached<K, V>(st: State<K, V>, key: K, p: K -> Reply<V>, d: V, now: Time, later: Time)
    requires Decide(Lookup(st.store, key, now), now) != Miss
    ensures ProvideAsync(st, key, d, now) == Provide(st, key, p, now, later)
  {
  }

  /**
   * `Get` answers what `GetOrProvide` would serve from the cache, and reports
   * a miss exactly when `GetOrProvide` would call the provider, for entries
   * whose fresh window ends no later than their usable one.
   */
  lemma ReadAgreesWithProvide<K, V>(st: State<K, V>, key: K, p: K -> Reply<V>, now: Time, later: Time, zero: V)
    requires var found := Lookup(st.store, key, now); found.Some? ==> found.value.actual <= found.value.usable
    ensures var r := Provide(st, key, p, now, later);
      Read(st.store, key, now, zero) ==
        if Decide(Lookup(st.store, key, now), now) == Miss then (zero, false) else (r.value, r.ok)
  {
  }

  /** The clock readings of one `GetOrProvide` call: before the lookup and after the provider returns. */
  datatype Reading = Reading(now: Time, later: Time)

  /** Successive `GetOrProvide` calls for one key, one per reading; the answers in call order. */
  function ProvideEach<K, V>(st: State<K, V>, key: K, provider: K -> Reply<V>, rs: seq<Reading>): (r: (State<K, V>, seq<(V, bool)>))
    ensures |r.1| == |rs|
    decreases |rs|
  {
    if rs == [] then (st, [])
    else
      var a := Provide(st, key, provider, rs[0].now, rs[0].later);
      var rest := ProvideEach(a.state, key, provider, rs[1..]);
      (rest.0, [(a.value, a.ok)] + rest.1)
  }

  /**
   * Any number of calls, each finding a fresh or stale entry, are all served
   * from the backend as it stands: no provider call, no write, each answer the
   * entry found at its reading, and the key pending afterwards exactly when it
   * was before or some call found the entry stale.
   */
  lemma {:induction false} BurstServedFromCache<K, V>(st: State<K, V>, key: K, provider: K -> Reply<V>, rs: seq<Reading>)
    requires forall i :: 0 <= i < |rs| ==> Decide(Lookup(st.store, key, rs[i].now), rs[i].now) != Miss
    ensures var r := ProvideEach(st, key, provider, rs);
      && r.0.store == st.store && r.0.calls == st.calls
      && r.0.pending - {key} == st.pending - {key}
      && (key in r.0.pending <==> key in st.pending || exists i :: 0 <= i < |rs| && Decide(Lookup(st.store, key, rs[i].now), rs[i].now) == Refresh)
      && forall i :: 0 <= i < |rs| ==>
           Lookup(st.store, key, rs[i].now).Some? && r.1[i] == (Lookup(st.store, key, rs[i].now).value.value, Lookup(st.store, key, rs[i].now).value.ok)
    decreases |rs|
  {
    if rs != [] {
      var a := Provide(st, key, provider, rs[0].now, rs[0].later);
      assert a.state.store == st.store;
      var tail := rs[1..];
      assert forall i :: 0 <= i < |tail| ==> tail[i] == rs[i + 1];
      BurstServedFromCache(a.state, key, provider, tail);
      var r := ProvideEach(st, key, provider, rs);
      var rest := ProvideEach(a.state, key, provider, tail);
      assert r.1 == [(a.value, a.ok)] + rest.1;
      if key in r.0.pending && key !in st.pending {
        if Decide(Lookup(st.store, key, rs[0].now), rs[0].now) != Refresh {
          var j :| 0 <= j < |tail| && Decide(Lookup(st.store, key, tail[j].now), tail[j].now) == Refresh;
          assert rs[j + 1] == tail[j];
        }
      }
      if exists i :: 0 <= i < |rs| && Decide(Lookup(st.store, key, rs[i].now), rs[i].now) == Refresh {
        var j :| 0 <= j < |rs| && Decide(Lookup(st.store, key, rs[j].now), rs[j].now) == Refresh;
        if j > 0 {
          assert tail[j - 1] == rs[j];
        }
      }
    }
  }

  /**
   * Fresh reads: after a miss answered at `later`, any number of calls within
   * the actual TTL return the provider's answer, invoke no provider and leave
   * the cache exactly as it was.
   */
  lemma {:induction false} FreshBurst<K, V>(st: State<K, V>, key: K, p: K -> Reply<V>, q: K -> Reply<V>, later: Time, rs: seq<Reading>)
    requires 0 <= p(key).actualTTL <= p(key).usableTTL
    requires forall i :: 0 <= i < |rs| ==> later <= rs[i].now < later + p(key).actualTTL
    ensures var s1 := Updated(st, key, p(key), later);
      var r := ProvideEach(s1, key, q, rs);
      && r.0.store == s1.store && r.0.calls == s1.calls && r.0.pending == s1.pending
      && forall i :: 0 <= i < |rs| ==> r.1[i] == (p(key).value, p(key).err.None?)
  {
    var s1 := Updated(st, key, p(key), later);
    forall i | 0 <= i < |rs|
      ensures Decide(Lookup(s1.store, key, rs[i].now), rs[i].now) == Hit
      ensures Lookup(s1.store, key, rs[i].now) == Some(ItemFor(p(key), later))
    {
      Timeline(st.store, key, p(key), later, rs[i].now - later);
    }
    BurstServedFromCache(s1, key, q, rs);
    var r := ProvideEach(s1, key, q, rs);
    assert key !in r.0.pending && key !in s1.pending;
    assert r.0.pending == r.0.pending - {key};
    assert s1.pending == s1.pending - {key};
  }

  /**
   * Stale reads coalesce: any number of calls in the grace window return the
   * old answer and invoke no provider; together they leave one refresh
   * pending, and running it costs exactly one provider invocation.
   */
  lemma {:induction false} StaleBurstOneRefresh<K, V>(st: State<K, V>, key: K, p: K -> Reply<V>, q: K -> Reply<V>, later: Time,
                                                     rs: seq<Reading>, later2: Time)
    requires 0 <= p(key).actualTTL <= p(key).usableTTL
    requires |rs| > 0
    requires forall i :: 0 <= i < |rs| ==> later + p(key).actualTTL <= rs[i].now < later + p(key).usableTTL
    ensures var s1 := Updated(st, key, p(key), later);
      var r := ProvideEach(s1, key, q, rs);
      && r.0 == s1.(pending := s1.pending + {key})
      && (forall i :: 0 <= i < |rs| ==> r.1[i] == (p(key).value, p(key).err.None?))
      && Refreshed(r.0, key, q, later2).calls == s1.calls + 1
  {
    var s1 := Updated(st, key, p(key), later);
    forall i | 0 <= i < |rs|
      ensures Decide(Lookup(s1.store, key, rs[i].now), rs[i].now) == Refresh
      ensures Lookup(s1.store, key, rs[i].now) == Some(ItemFor(p(key), later))
    {
      Timeline(st.store, key, p(key), later, rs[i].now - later);
    }
    BurstServedFromCache(s1, key, q, rs);
    var r := ProvideEach(s1, key, q, rs);
    assert Decide(Lookup(s1.store, key, rs[0].now), rs[0].now) == Refresh;
    assert key in r.0.pending;
    assert forall x :: x in r.0.pending <==> x in (s1.pending - {key}) + {key};
  }

  class Cache<K(==), V> {
    var store: Store<K, V>
    var pending: set<K>
    var calls: nat
    /** Go's zero value of V, which `Get` returns on a miss. */
    const zero: V

    function Snapshot(): State<K, V>
      reads this
    {
      State(store, pending, calls)
    }

    /** `NewCache` over a backend that may already hold values. */
    constructor (back: Store<K, V>, zero: V)
      ensures Snapshot() == State(back, {}, 0) && this.zero == zero
    {
      store, pending, calls := back, {}, 0;
      this.zero := zero;
    }

    /** The part of `GetOrProvide` and `GetOrProvideAsync` before the update: serve a fresh or stale entry. */
    method Serve(key: K, now: Time) returns (served: bool, v: V, ok: bool)
      modifies this
      ensures var d := Decide(Lookup(old(store), key, now), now);
        && (served <==> d != Miss)
        && (served ==> v == Lookup(old(store), key, now).value.value && ok == Lookup(old(store), key, now).value.ok)
        && Snapshot() == if d == Refresh then old(Snapshot()).(pending := old(pending) + {key}) else old(Snapshot())
    {
      served, v, ok := false, zero, false;
      var found := Lookup(store, key, now);
      if found.Some? {
        var item := found.value;
        if now < item.actual {
          return true, item.value, item.ok;
        }
        if now < item.usable {
          pending := pending + {key};
          return true, item.value, item.ok;
        }
      }
    }

    method UpdateValueFromProvider(key: K, provider: K -> Reply<V>, later: Time) returns (v: V, err: Option<Error>)
      modifies this
      ensures Snapshot() == Updated(old(Snapshot()), key, provider(key), later)
      ensures v == provider(key).value && err == provider(key).err
    {
      var reply := provider(key);
      calls := calls + 1;
      store := Backend.SetWithTTL(store, key, Backend.Typed(ItemFor(reply, later)), reply.usableTTL, later).0;
      pending := pending - {key};
      v, err := reply.value, reply.err;
    }

    method GetOrProvide(key: K, provider: K -> Reply<V>, now: Time, later: Time) returns (v: V, ok: bool)
      modifies this
      ensures Served(Snapshot(), v, ok) == Provide(old(Snapshot()), key, provider, now, later)
    {
      var served;
      served, v, ok := Serve(key, now);
      if !served {
        var err;
        v, err := UpdateValueFromProvider(key, provider, later);
        ok := err.None?;
      }
    }

    method GetOrProvideAsync(key: K, defaultValue: V, now: Time) returns (v: V, ok: bool)
      modifies this
      ensures Served(Snapshot(), v, ok) == ProvideAsync(old(Snapshot()), key, defaultValue, now)
    {
      var served;
      served, v, ok := Serve(key, now);
      if !served {
        pending := pending + {key};
        v, ok := defaultValue, false;
      }
    }

    /** The scheduled background update of `key`, run to completion. */
    method RunPending(key: K, provider: K -> Reply<V>, later: Time)
      modifies this
      ensures Snapshot() == Refreshed(old(Snapshot()), key, provider, later)
    {
      if key in pending {
        var _, _ := UpdateValueFromProvider(key, provider, later);
      }
    }

    method Get(key: K, now: Time) returns (v: V, ok: bool)
      ensures (v, ok) == Read(store, key, now, zero)
      ensures ok ==> now < Lookup(store, key, now).value.usable && Lookup(store, key, now).value.ok
    {
      var found := Lookup(store, key, now);
      if found.Some? && now < found.value.usable {
        return found.value.value, found.value.ok;
      }
      return zero, false;
    }

    method Remove(key: K)
      modifies this
      ensures Snapshot() == old(Snapshot()).(store := Backend.Remove(old(store), key))
    {
      store := Backend.Remove(store, key);
    }

    method Clear()
      modifies this
      ensures Snapshot() == old(Snapshot()).(store := map[])
    {
      store := map[];
    }
  }
}
