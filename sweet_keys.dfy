/**
 * Key namespacing of lib/pkg/sweet/keys.go: a key generator that prefixes
 * the caller's key with `namespace ⧺ sep ⧺ cacheName ⧺ sep`, and the
 * `GlobalKeysCache` wrapper around a cache of lib/pkg/sweet/simple.go.
 */
module SweetKeys {
  import opened Prelude
  import Backend
  import Freshness
  import C = SweetCache

  /** The error returned for a key that is neither a string nor a `CacheKeyGenerator`. */
  const InvalidCacheKeyErr := Error("cache key should be string or implement \"GetCacheKey() string\" method")

  /**
   * The dynamic shapes a key can take: a string, a `CacheKeyGenerator`
   * (represented by the string its `GetCacheKey` returns), or any other value.
   */
  datatype Key = StringKey(s: string) | GeneratorKey(cacheKey: string) | OtherKey(id: nat)

  /** `GlobalCacheKeyGenerator`: holds the derived key. */
  datatype GlobalCacheKeyGenerator = GlobalCacheKeyGenerator(cacheKey: string)
  {
    function GetCacheKey(): (r: string)
      ensures r == cacheKey
    {
      cacheKey
    }
  }

  /** A generator passed on as a key is a `CacheKeyGenerator` key. */
  function AsKey(g: GlobalCacheKeyGenerator): Key
  {
    GeneratorKey(g.GetCacheKey())
  }

  /** The full key prefix both constructors build. */
  function Prefix(namespace: string, cacheName: string, separator: string): string
  {
    namespace + separator + cacheName + separator
  }

  /**
   * `NewGlobalCacheKeyGeneratorFromPrefix`: fails exactly for keys of another
   * shape; otherwise the derived key starts with `prefix`, and what follows
   * the prefix is the string key or the generator's own key, verbatim.
   */
  function FromPrefix(prefix: string, key: Key): (r: Result<GlobalCacheKeyGenerator>)
    ensures r.Err? <==> key.OtherKey?
    ensures r.Err? ==> r.error == InvalidCacheKeyErr
    ensures r.Ok? ==> var derived := r.value.GetCacheKey();
      && |prefix| <= |derived| && derived[..|prefix|] == prefix
      && derived[|prefix|..] == (if key.StringKey? then key.s else key.cacheKey)
  {
    match key
    case StringKey(s) => Ok(GlobalCacheKeyGenerator(prefix + s))
    case GeneratorKey(k) => Ok(GlobalCacheKeyGenerator(prefix + k))
    case OtherKey(_) => Err(InvalidCacheKeyErr)
  }

  /** `NewGlobalCacheKeyGenerator`: the derived key is namespace, separator, cache name, separator and the raw key. */
  function NewGlobalCacheKeyGenerator(namespace: string, cacheName: string, separator: string, key: Key): (r: Result<GlobalCacheKeyGenerator>)
    ensures r.Err? <==> key.OtherKey?
    ensures key.StringKey? ==> r == Ok(GlobalCacheKeyGenerator(namespace + separator + cacheName + separator + key.s))
    ensures key.GeneratorKey? ==> r == Ok(GlobalCacheKeyGenerator(namespace + separator + cacheName + separator + key.cacheKey))
  {
    FromPrefix(Prefix(namespace, cacheName, separator), key)
  }

  /** The raw string behind a valid key. */
  function Raw(key: Key): string
    requires !key.OtherKey?
  {
    if key.StringKey? then key.s else key.cacheKey
  }

  /** For a fixed prefix, valid keys with distinct raw strings get distinct derived keys. */
  lemma {:induction false} DerivedKeysInjective(prefix: string, a: Key, b: Key)
    requires !a.OtherKey? && !b.OtherKey?
    ensures FromPrefix(prefix, a) == FromPrefix(prefix, b) <==> Raw(a) == Raw(b)
  {
    if FromPrefix(prefix, a) == FromPrefix(prefix, b) {
      assert (prefix + Raw(a))[|prefix|..] == Raw(a);
      assert (prefix + Raw(b))[|prefix|..] == Raw(b);
    }
  }

  /** A generator already namespaced once and namespaced again carries both prefixes, outer first. */
  lemma NestedPrefixes(outer: string, inner: string, key: Key)
    requires !key.OtherKey?
    ensures var g := FromPrefix(inner, key).value;
      FromPrefix(outer, AsKey(g)) == Ok(GlobalCacheKeyGenerator(outer + inner + Raw(key)))
  {
    assert outer + (inner + Raw(key)) == outer + inner + Raw(key);
  }

  /**
   * The derived key does not determine the cache name: when the separator
   * occurs in names, two caches of one namespace derive the same key.
   */
  lemma SeparatorInNameCollides()
    ensures NewGlobalCacheKeyGenerator("ns", "a", ":", StringKey("b:c"))
         == NewGlobalCacheKeyGenerator("ns", "a:b", ":", StringKey("c"))
  {
    assert "ns" + ":" + "a" + ":" + "b:c" == "ns:a:b:c";
    assert "ns" + ":" + "a:b" + ":" + "c" == "ns:a:b:c";
  }

  /** `GlobalKeysCache.GetOrProvide`: an invalid key answers `(zero, false)` untouched; a valid one is namespaced. */
  function Provide<V>(prefix: string, st: C.State<Key, V>, key: Key, provider: Key -> C.Reply<V>, now: Time, later: Time, zero: V): C.Served<Key, V>
  {
    match FromPrefix(prefix, key)
    case Err(_) => C.Served(st, zero, false)
    case Ok(g) => C.Provide(st, AsKey(g), provider, now, later)
  }

  /** `GetOrProvideAsync` as evidently intended: an invalid key answers `(zero, false)` untouched; a valid one is namespaced. */
  function ProvideAsyncNamespaced<V>(prefix: string, st: C.State<Key, V>, key: Key, defaultValue: V, now: Time, zero: V): C.Served<Key, V>
  {
    match FromPrefix(prefix, key)
    case Err(_) => C.Served(st, zero, false)
    case Ok(g) => C.ProvideAsync(st, AsKey(g), defaultValue, now)
  }

  /** `Get` as evidently intended: the same namespaced key `GetOrProvide` uses. */
  function ReadNamespaced<V>(prefix: string, store: C.Store<Key, V>, key: Key, now: Time, zero: V): (V, bool)
  {
    match FromPrefix(prefix, key)
    case Err(_) => (zero, false)
    case Ok(g) => C.Read(store, AsKey(g), now, zero)
  }

  /** `Remove` as evidently intended. */
  function RemovedNamespaced<V>(prefix: string, store: C.Store<Key, V>, key: Key): C.Store<Key, V>
  {
    match FromPrefix(prefix, key)
    case Err(_) => store
    case Ok(g) => Backend.Remove(store, AsKey(g))
  }

  /** A key of another shape never reaches the back cache: no provider call, no write. */
  lemma InvalidKeyNeverReachesBack<V>(prefix: string, st: C.State<Key, V>, id: nat, provider: Key -> C.Reply<V>, now: Time, later: Time, zero: V)
    ensures Provide(prefix, st, OtherKey(id), provider, now, later, zero) == C.Served(st, zero, false)
  {
  }

  /**
   * As written, `Get` forwards the caller's key: it never sees what
   * `GetOrProvide` stored. With neither the raw nor the namespaced key
   * present, `GetOrProvide` calls the provider once and answers its value,
   * and a following `Get` of the same key misses.
   */
  lemma {:induction false} ForwardedGetMissesProvided<V>(prefix: string, st: C.State<Key, V>, s: string, provider: Key -> C.Reply<V>,
                                                         now: Time, later: Time, zero: V)
    requires C.Lookup(st.store, GeneratorKey(prefix + s), now).None?
    requires C.Lookup(st.store, StringKey(s), later).None?
    ensures var r := Provide(prefix, st, StringKey(s), provider, now, later, zero);
      && r.state.calls == st.calls + 1
      && (r.value, r.ok) == (provider(GeneratorKey(prefix + s)).value, provider(GeneratorKey(prefix + s)).ok)
      && C.Read(r.state.store, StringKey(s), later, zero) == (zero, false)
  {
    var reply := provider(GeneratorKey(prefix + s));
    Backend.GetAfterSetWithTTL(st.store, GeneratorKey(prefix + s), Backend.Typed(C.ItemFor(reply, later)), reply.usableTTL, later, StringKey(s), later);
  }

  /**
   * As written, `Remove` forwards the caller's key: the entry `GetOrProvide`
   * stored for the same key survives it.
   */
  lemma {:induction false} ForwardedRemoveKeepsProvided<V>(prefix: string, s: string, store: C.Store<Key, V>, now: Time)
    ensures C.Lookup(Backend.Remove(store, StringKey(s)), GeneratorKey(prefix + s), now)
         == C.Lookup(store, GeneratorKey(prefix + s), now)
  {
    Backend.GetAfterRemove(store, StringKey(s), GeneratorKey(prefix + s), now);
  }

  /** The namespaced `Get` answers exactly what `GetOrProvide` served from the cache, or misses where it would call the provider. */
  lemma ReadNamespacedAgreesWithProvide<V>(prefix: string, st: C.State<Key, V>, key: Key, provider: Key -> C.Reply<V>, now: Time, later: Time, zero: V)
    requires !key.OtherKey?
    ensures var g := FromPrefix(prefix, key).value;
      var r := Provide(prefix, st, key, provider, now, later, zero);
      ReadNamespaced(prefix, st.store, key, now, zero) ==
        if C.Decide(C.Lookup(st.store, AsKey(g), now), now) == Freshness.Miss then (zero, false) else (r.value, r.ok)
  {
    C.ReadAgreesWithProvide(st, AsKey(FromPrefix(prefix, key).value), provider, now, later, zero);
  }

  /** The namespaced `Get` sees what a synchronous `GetOrProvide` stored. */
  lemma {:induction false} ReadNamespacedSeesProvided<V>(prefix: string, st: C.State<Key, V>, key: Key, provider: Key -> C.Reply<V>, now: Time, later: Time, zero: V)
    requires !key.OtherKey?
    requires C.Lookup(st.store, GeneratorKey(prefix + Raw(key)), now).None?
    requires 0 <= provider(GeneratorKey(prefix + Raw(key))).usableTTL
    ensures var r := Provide(prefix, st, key, provider, now, later, zero);
      ReadNamespaced(prefix, r.state.store, key, later, zero) == (r.value, r.ok)
  {
    var g := FromPrefix(prefix, key).value;
    C.MissReturnsStoredItem(st, AsKey(g), provider, now, later);
  }

  /**
   * As written, `GetOrProvideAsync` forwards the caller's key: with neither
   * the raw nor the namespaced key present, the refresh it schedules stores
   * the provider's reply under the raw key, so a following `GetOrProvide` of
   * the same key still misses and calls the provider a second time.
   */
  lemma {:induction false} ForwardedAsyncRefreshUnseen<V>(prefix: string, st: C.State<Key, V>, s: string, provider: Key -> C.Reply<V>, d: V,
                                                          now: Time, later: Time, later2: Time, zero: V)
    requires C.Lookup(st.store, StringKey(s), now).None?
    requires C.Lookup(st.store, GeneratorKey(prefix + s), later2).None?
    ensures var a := C.ProvideAsync(st, StringKey(s), d, now);
      var st1 := C.Refreshed(a.state, StringKey(s), provider, later);
      && (a.value, a.ok) == (d, false)
      && st1.calls == st.calls + 1
      && Provide(prefix, st1, StringKey(s), provider, later2, later2, zero).state.calls == st.calls + 2
  {
    var reply := provider(StringKey(s));
    Backend.GetAfterSetWithTTL(st.store, StringKey(s), Backend.Typed(C.ItemFor(reply, later)), reply.usableTTL, later,
                               GeneratorKey(prefix + s), later2);
  }

  /**
   * With the namespaced `GetOrProvideAsync`, a miss answers the default value,
   * and once the scheduled refresh of the namespaced key has run, the
   * namespaced `Get` answers the provider's value.
   */
  lemma {:induction false} NamespacedAsyncRefreshSeen<V>(prefix: string, st: C.State<Key, V>, key: Key, provider: Key -> C.Reply<V>, d: V,
                                                         now: Time, later: Time, zero: V)
    requires !key.OtherKey?
    requires C.Lookup(st.store, GeneratorKey(prefix + Raw(key)), now).None?
    requires 0 <= provider(GeneratorKey(prefix + Raw(key))).usableTTL
    ensures var k := GeneratorKey(prefix + Raw(key));
      var a := ProvideAsyncNamespaced(prefix, st, key, d, now, zero);
      var st1 := C.Refreshed(a.state, k, provider, later);
      && (a.value, a.ok) == (d, false)
      && ReadNamespaced(prefix, st1.store, key, later, zero) == (provider(k).value, provider(k).ok)
  {
    var k := GeneratorKey(prefix + Raw(key));
    C.AsyncMissThenRefresh(st, k, provider, d, now, later);
    C.MissReturnsStoredItem(st, k, provider, now, later);
  }

  /** After the namespaced `Remove`, the namespaced `Get` misses. */
  lemma {:induction false} RemovedNamespacedMisses<V>(prefix: string, store: C.Store<Key, V>, key: Key, now: Time, zero: V)
    ensures ReadNamespaced(prefix, RemovedNamespaced(prefix, store, key), key, now, zero) == (zero, false)
  {
    if !key.OtherKey? {
      var g := FromPrefix(prefix, key).value;
      Backend.GetAfterRemove(store, AsKey(g), AsKey(g), now);
    }
  }

  class GlobalKeysCache<V> {
    const back: C.Cache<Key, V>
    const keyPrefix: string

    /** `NewGlobalKeysCache`. */
    constructor (namespace: string, cacheName: string, separator: string, back: C.Cache<Key, V>)
      ensures this.back == back && keyPrefix == namespace + separator + cacheName + separator
    {
      this.back := back;
      keyPrefix := Prefix(namespace, cacheName, separator);
    }

    method GetOrProvide(key: Key, provider: Key -> C.Reply<V>, now: Time, later: Time) returns (v: V, ok: bool)
      modifies back
      ensures C.Served(back.Snapshot(), v, ok) == Provide(keyPrefix, old(back.Snapshot()), key, provider, now, later, back.zero)
    {
      var generated := FromPrefix(keyPrefix, key);
      if generated.Err? {
        return back.zero, false;
      }
      v, ok := back.GetOrProvide(AsKey(generated.value), provider, now, later);
    }

    /** As written: the caller's key is forwarded without namespacing. */
    method GetOrProvideAsync(key: Key, defaultValue: V, now: Time) returns (v: V, ok: bool)
      modifies back
      ensures C.Served(back.Snapshot(), v, ok) == C.ProvideAsync(old(back.Snapshot()), key, defaultValue, now)
    {
      v, ok := back.GetOrProvideAsync(key, defaultValue, now);
    }

    /** As written: the caller's key is forwarded without namespacing. */
    method Get(key: Key, now: Time) returns (v: V, ok: bool)
      ensures (v, ok) == C.Read(back.store, key, now, back.zero)
    {
      v, ok := back.Get(key, now);
    }

    /** As written: the caller's key is forwarded without namespacing. */
    method Remove(key: Key)
      modifies back
      ensures back.Snapshot() == old(back.Snapshot()).(store := Backend.Remove(old(back.store), key))
    {
      back.Remove(key);
    }

    method Clear()
      modifies back
      ensures back.Snapshot() == old(back.Snapshot()).(store := map[])
    {
      back.Clear();
    }

    /** `GetOrProvideAsync` corrected: namespaced like `GetOrProvide`. */
    method GetOrProvideAsyncNamespaced(key: Key, defaultValue: V, now: Time) returns (v: V, ok: bool)
      modifies back
      ensures C.Served(back.Snapshot(), v, ok) == ProvideAsyncNamespaced(keyPrefix, old(back.Snapshot()), key, defaultValue, now, back.zero)
    {
      var generated := FromPrefix(keyPrefix, key);
      if generated.Err? {
        return back.zero, false;
      }
      v, ok := back.GetOrProvideAsync(AsKey(generated.value), defaultValue, now);
    }

    /** `Get` corrected: namespaced like `GetOrProvide`. */
    method GetNamespaced(key: Key, now: Time) returns (v: V, ok: bool)
      ensures (v, ok) == ReadNamespaced(keyPrefix, back.store, key, now, back.zero)
    {
      var generated := FromPrefix(keyPrefix, key);
      if generated.Err? {
        return back.zero, false;
      }
      v, ok := back.Get(AsKey(generated.value), now);
    }

    /** `Remove` corrected: namespaced like `GetOrProvide`. */
    method RemoveNamespaced(key: Key)
      modifies back
      ensures back.Snapshot() == old(back.Snapshot()).(store := RemovedNamespaced(keyPrefix, old(back.store), key))
    {
      var generated := FromPrefix(keyPrefix, key);
      if generated.Ok? {
        back.Remove(AsKey(generated.value));
      }
    }
  }
}
