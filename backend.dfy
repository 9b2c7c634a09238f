/**
 * The backend store every single-tier cache writes into (the `SimpleCache`
 * interface). A store maps keys to slots; a slot written with a positive TTL
 * expires at the instant of the write plus the TTL, a slot written with TTL 0
 * never expires, and a write with a negative TTL is discarded.
 */
module Backend {
  import opened Prelude

  /** What the store holds for one key: the value and, for a positive TTL, its expiry instant. */
  datatype Slot<T> = Slot(value: T, expiresAt: Option<Time>)

  /**
   * The store holds values of any type. `Typed` is a value of the type the
   * cache reading it expects; `Untyped` is anything else another user of the
   * same store wrote, on which the cache's type assertion fails.
   */
  datatype Any<T> = Typed(item: T) | Untyped

  type Store<K, T> = map<K, Slot<T>>

  predicate Live<T>(slot: Slot<T>, now: Time)
  {
    slot.expiresAt.None? || now < slot.expiresAt.value
  }

  /** `Get`: the value under `key`, unless there is none or it has expired at `now`. */
  function Get<K, T>(store: Store<K, T>, key: K, now: Time): (r: Option<T>)
    ensures r.Some? ==> key in store && r.value == store[key].value
    ensures key !in store ==> r.None?
    ensures key in store && Live(store[key], now) ==> r == Some(store[key].value)
    ensures key in store && !Live(store[key], now) ==> r.None?
  {
    if key in store && Live(store[key], now) then Some(store[key].value) else None
  }

  /**
   * `SetWithTTL` at instant `now`: the new store and whether the write was
   * accepted. A negative TTL leaves the store as it was.
   */
  function SetWithTTL<K, T>(store: Store<K, T>, key: K, value: T, ttl: Duration, now: Time): (r: (Store<K, T>, bool))
    ensures r.1 <==> ttl >= 0
    ensures !r.1 ==> r.0 == store
    ensures r.1 ==> r.0.Keys == store.Keys + {key} && r.0[key].value == value
    ensures forall k :: k in store && k != key ==> k in r.0 && r.0[k] == store[k]
  {
    if ttl < 0 then (store, false)
    else if ttl == 0 then (store[key := Slot(value, None)], true)
    else (store[key := Slot(value, Some(now + ttl))], true)
  }

  /** `Remove`: the key is gone and every other key keeps its slot. */
  function Remove<K, T>(store: Store<K, T>, key: K): (r: Store<K, T>)
    ensures key !in r
    ensures r.Keys == store.Keys - {key}
    ensures forall k :: k in r ==> r[k] == store[k]
  {
    store - {key}
  }

  /**
   * What a read at `t` sees after a write at `now` with `ttl`: for the written
   * key, the value while the TTL runs (forever for TTL 0), nothing after it,
   * and the old contents when the write was discarded; other keys unchanged.
   */
  lemma GetAfterSetWithTTL<K, T>(store: Store<K, T>, key: K, value: T, ttl: Duration, now: Time, other: K, t: Time)
    ensures Get(SetWithTTL(store, key, value, ttl, now).0, other, t) ==
      if other != key || ttl < 0 then Get(store, other, t)
      else if ttl == 0 || t < now + ttl then Some(value)
      else None
  {
  }

  /** After `Remove`, no read finds the key, and reads of other keys are unchanged. */
  lemma GetAfterRemove<K, T>(store: Store<K, T>, key: K, other: K, t: Time)
    ensures Get(Remove(store, key), other, t) == if other == key then None else Get(store, other, t)
  {
  }
}
