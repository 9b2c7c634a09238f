/**
 * The two-level cache of lib/pkg/sweet/twolevel.go over two caches of
 * lib/pkg/sweet/simple.go. A front miss runs the provider wrapped by
 * `WithRemoteCache` (lib/pkg/sweet/providers.go), stated here for the
 * success-flag providers of lib/pkg/sweet/cache.go.
 */
module SweetTwoLevel {
  import opened Prelude
  import opened Freshness
  import Backend
  import C = SweetCache

  /**
   * `WithRemoteCache(remote, base)` invoked for `key`: the remote tier's
   * `GetOrProvide` with `base` as its provider. Value and success flag are
   * the remote's; the TTLs are those `base` returned if the remote invoked
   * it, and zero otherwise.
   */
  function WithRemoteCache<K, V>(remote: C.State<K, V>, base: K -> C.Reply<V>, key: K, now: Time, later: Time): (r: (C.State<K, V>, C.Reply<V>))
    ensures var a := C.Provide(remote, key, base, now, later);
      r.0 == a.state && r.1.value == a.value && r.1.ok == a.ok
    ensures r.0.calls == remote.calls + 1 ==> r.1.actualTTL == base(key).actualTTL && r.1.usableTTL == base(key).usableTTL
    ensures r.0.calls == remote.calls ==> r.1.actualTTL == 0 && r.1.usableTTL == 0
    ensures r.0.calls in {remote.calls, remote.calls + 1}
  {
    var a := C.Provide(remote, key, base, now, later);
    var ran := C.Decide(C.Lookup(remote.store, key, now), now) == Miss;
    var reply := base(key);
    (a.state, C.Reply(a.ok, a.value, if ran then reply.actualTTL else 0, if ran then reply.usableTTL else 0))
  }

  datatype Tiers<K, V> = Tiers(front: C.State<K, V>, back: C.State<K, V>)

  datatype Outcome<K, V> = Outcome(tiers: Tiers<K, V>, value: V, ok: bool)

  /** `GetOrProvide`: the front tier's, with the provider wrapped by the back tier. */
  function Provide<K, V>(t: Tiers<K, V>, key: K, base: K -> C.Reply<V>, now: Time, later: Time): Outcome<K, V>
  {
    var wrapped := WithRemoteCache(t.back, base, key, now, later);
    var frontMiss := C.Decide(C.Lookup(t.front.store, key, now), now) == Miss;
    var a := C.Provide(t.front, key, k => wrapped.1, now, later);
    Outcome(Tiers(a.state, if frontMiss then wrapped.0 else t.back), a.value, a.ok)
  }

  /** `GetOrProvideAsync`: the front tier's; the back tier is reached by the refresh it schedules. */
  function ProvideAsync<K, V>(t: Tiers<K, V>, key: K, defaultValue: V, now: Time): Outcome<K, V>
  {
    var a := C.ProvideAsync(t.front, key, defaultValue, now);
    Outcome(t.(front := a.state), a.value, a.ok)
  }

  /** The front tier's scheduled refresh of `key`, which runs the wrapped provider. */
  function Refreshed<K, V>(t: Tiers<K, V>, key: K, base: K -> C.Reply<V>, now: Time, later: Time): Tiers<K, V>
  {
    if key in t.front.pending then
      var wrapped := WithRemoteCache(t.back, base, key, now, later);
      Tiers(C.Updated(t.front, key, wrapped.1, later), wrapped.0)
    else t
  }

  /** `Get`: the front's answer if it reports success, otherwise the back's. */
  function Read<K, V>(t: Tiers<K, V>, key: K, now: Time, zero: V): (V, bool)
  {
    var f := C.Read(t.front.store, key, now, zero);
    if f.1 then f else C.Read(t.back.store, key, now, zero)
  }

  function Removed<K, V>(t: Tiers<K, V>, key: K): Tiers<K, V>
  {
    Tiers(t.front.(store := Backend.Remove(t.front.store, key)), t.back.(store := Backend.Remove(t.back.store, key)))
  }

  function Cleared<K, V>(t: Tiers<K, V>): Tiers<K, V>
  {
    Tiers(t.front.(store := map[]), t.back.(store := map[]))
  }

  /**
   * Both tiers empty for `key`: the base provider runs exactly once, through
   * the back tier, and afterwards both tiers hold the same entry.
   */
  lemma {:induction false} BothEmptyBaseRunsOnce<K, V>(t: Tiers<K, V>, key: K, base: K -> C.Reply<V>, now: Time, later: Time)
    requires C.Lookup(t.front.store, key, now).None? && C.Lookup(t.back.store, key, now).None?
    requires 0 <= base(key).usableTTL
    ensures var r := Provide(t, key, base, now, later);
      && r.tiers.back.calls == t.back.calls + 1
      && r.tiers.front.calls == t.front.calls + 1
      && r.value == base(key).value && r.ok == base(key).ok
      && C.Lookup(r.tiers.front.store, key, later) == Some(C.ItemFor(base(key), later))
      && C.Lookup(r.tiers.back.store, key, later) == Some(C.ItemFor(base(key), later))
  {
    var wrapped := WithRemoteCache(t.back, base, key, now, later);
    assert wrapped.1 == base(key);
    Backend.GetAfterSetWithTTL(t.back.store, key, Backend.Typed(C.ItemFor(base(key), later)), base(key).usableTTL, later, key, later);
    Backend.GetAfterSetWithTTL(t.front.store, key, Backend.Typed(C.ItemFor(base(key), later)), base(key).usableTTL, later, key, later);
  }

  /**
   * Empty front, fresh back: the base provider is not called and the front
   * stores the back's value with zero TTLs. With no usable bound in this
   * cache, that front entry never expires and is served stale, with a
   * refresh scheduled, at every reading from `later` on.
   */
  lemma {:induction false} FreshBackLeavesFrontStale<K, V>(t: Tiers<K, V>, key: K, base: K -> C.Reply<V>, now: Time, later: Time, t2: Time)
    requires C.Lookup(t.front.store, key, now).None?
    requires C.Decide(C.Lookup(t.back.store, key, now), now) == Hit
    requires later <= t2
    ensures var item := C.Lookup(t.back.store, key, now).value;
      var r := Provide(t, key, base, now, later);
      && r.tiers.back == t.back
      && r.value == item.value && r.ok == item.ok
      && C.Lookup(r.tiers.front.store, key, t2) == Some(C.CacheItem(item.value, item.ok, later))
      && C.Decide(C.Lookup(r.tiers.front.store, key, t2), t2) == Refresh
  {
    var item := C.Lookup(t.back.store, key, now).value;
    var wrapped := WithRemoteCache(t.back, base, key, now, later);
    assert wrapped.1 == C.Reply(item.ok, item.value, 0, 0);
    Backend.GetAfterSetWithTTL(t.front.store, key, Backend.Typed(C.ItemFor(wrapped.1, later)), 0, later, key, t2);
  }

  /**
   * After a `GetOrProvide` that finds neither tier holding `key`, `Get` at the
   * same reading answers what `GetOrProvide` returned, success or failure.
   */
  lemma {:induction false} ReadSeesProvided<K, V>(t: Tiers<K, V>, key: K, base: K -> C.Reply<V>, now: Time, later: Time, zero: V)
    requires C.Lookup(t.front.store, key, now).None? && C.Lookup(t.back.store, key, now).None?
    requires 0 <= base(key).usableTTL
    ensures var r := Provide(t, key, base, now, later);
      Read(r.tiers, key, later, zero) == (r.value, r.ok)
  {
    BothEmptyBaseRunsOnce(t, key, base, now, later);
  }

  /**
   * A front miss under `GetOrProvideAsync`: the caller gets the default value
   * and false, the back tier is untouched, and running the scheduled refresh
   * leaves both tiers exactly as the synchronous `GetOrProvide` would.
   */
  lemma AsyncFrontMissThenRefresh<K, V>(t: Tiers<K, V>, key: K, base: K -> C.Reply<V>, d: V, now: Time, later: Time)
    requires C.Decide(C.Lookup(t.front.store, key, now), now) == Miss
    ensures var a := ProvideAsync(t, key, d, now);
      && a.value == d && !a.ok && a.tiers.back == t.back
      && Refreshed(a.tiers, key, base, now, later) == Provide(t, key, base, now, later).tiers
  {
  }

  /** When the front tier holds an entry, the asynchronous call answers and acts exactly as the synchronous one. */
  lemma {:induction false} AsyncAgreesWhenFrontCached<K, V>(t: Tiers<K, V>, key: K, base: K -> C.Reply<V>, d: V, now: Time, later: Time)
    requires C.Decide(C.Lookup(t.front.store, key, now), now) != Miss
    ensures ProvideAsync(t, key, d, now) == Provide(t, key, base, now, later)
  {
    var wrapped := WithRemoteCache(t.back, base, key, now, later);
    C.AsyncAgreesWhenCached(t.front, key, k => wrapped.1, d, now, later);
  }

  /** After `Remove`, neither tier has the key, and `Get` misses it. */
  lemma {:induction false} RemovedFromBothTiers<K, V>(t: Tiers<K, V>, key: K, now: Time, zero: V)
    ensures var r := Removed(t, key);
      C.Lookup(r.front.store, key, now).None? && C.Lookup(r.back.store, key, now).None?
      && Read(r, key, now, zero) == (zero, false)
  {
    Backend.GetAfterRemove(t.front.store, key, key, now);
    Backend.GetAfterRemove(t.back.store, key, key, now);
  }

  /** After `Clear`, `Get` misses every key. */
  lemma ClearedEmpties<K, V>(t: Tiers<K, V>, key: K, now: Time, zero: V)
    ensures Read(Cleared(t), key, now, zero) == (zero, false)
  {
  }

  method InvokeWithRemoteCache<K, V>(remote: C.Cache<K, V>, base: K -> C.Reply<V>, key: K, now: Time, later: Time) returns (r: C.Reply<V>)
    modifies remote
    ensures (remote.Snapshot(), r) == WithRemoteCache(old(remote.Snapshot()), base, key, now, later)
  {
    var callsBefore := remote.calls;
    var v, ok := remote.GetOrProvide(key, base, now, later);
    // the TTLs captured from `base` are set only if the remote ran it
    var newActualTTL, newUsableTTL := 0, 0;
    if remote.calls != callsBefore {
      newActualTTL, newUsableTTL := base(key).actualTTL, base(key).usableTTL;
    }
    r := C.Reply(ok, v, newActualTTL, newUsableTTL);
  }

  class TwoLevelCache<K(==), V> {
    const front: C.Cache<K, V>
    const back: C.Cache<K, V>

    ghost predicate Valid()
    {
      front != back
    }

    function Snapshot(): Tiers<K, V>
      reads front, back
    {
      Tiers(front.Snapshot(), back.Snapshot())
    }

    /** `NewTwoLevelCache` over two distinct tiers. */
    constructor (front: C.Cache<K, V>, back: C.Cache<K, V>)
      requires front != back
      ensures Valid() && this.front == front && this.back == back
    {
      this.front, this.back := front, back;
    }

    method GetOrProvide(key: K, base: K -> C.Reply<V>, now: Time, later: Time) returns (v: V, ok: bool)
      requires Valid()
      modifies front, back
      ensures Outcome(Snapshot(), v, ok) == Provide(old(Snapshot()), key, base, now, later)
    {
      var served;
      served, v, ok := front.Serve(key, now);
      if !served {
        var wrapped := InvokeWithRemoteCache(back, base, key, now, later);
        v, ok := front.UpdateValueFromProvider(key, k => wrapped, later);
      }
    }

    method GetOrProvideAsync(key: K, defaultValue: V, now: Time) returns (v: V, ok: bool)
      requires Valid()
      modifies front
      ensures Outcome(Snapshot(), v, ok) == ProvideAsync(old(Snapshot()), key, defaultValue, now)
    {
      v, ok := front.GetOrProvideAsync(key, defaultValue, now);
    }

    /** The front tier's scheduled refresh of `key`, run to completion with the wrapped provider. */
    method RunPending(key: K, base: K -> C.Reply<V>, now: Time, later: Time)
      requires Valid()
      modifies front, back
      ensures Snapshot() == Refreshed(old(Snapshot()), key, base, now, later)
    {
      if key in front.pending {
        var wrapped := InvokeWithRemoteCache(back, base, key, now, later);
        var _, _ := front.UpdateValueFromProvider(key, k => wrapped, later);
      }
    }

    method Get(key: K, now: Time) returns (v: V, ok: bool)
      requires Valid() && front.zero == back.zero
      ensures (v, ok) == Read(Snapshot(), key, now, front.zero)
    {
      v, ok := front.Get(key, now);
      if !ok {
        v, ok := back.Get(key, now);
      }
    }

    method Remove(key: K)
      requires Valid()
      modifies front, back
      ensures Snapshot() == Removed(old(Snapshot()), key)
    {
      front.Remove(key);
      back.Remove(key);
    }

    method Clear()
      requires Valid()
      modifies front, back
      ensures Snapshot() == Cleared(old(Snapshot()))
    {
      front.Clear();
      back.Clear();
    }
  }
}
