/**
 * The provider helpers of examples/otter-redis-example/cmd/main.go: a
 * provider that routes every call through a remote cache (a cache of
 * pkg/simple/cache.go, which reports errors as values), and fixed-TTL
 * providers built on it.
 */
module ExampleProviders {
  import opened Prelude
  import opened Freshness
  import Pv = Providers
  import P = PkgSimpleCache

  /** The reply the remote tier stores: its usable TTL is the actual TTL, so the remote never prolongs an entry. */
  function ForRemote<V>(reply: Pv.Reply<V>): (r: Pv.Reply<V>)
    ensures r.value == reply.value && r.err == reply.err && r.actualTTL == reply.actualTTL
    ensures r.usableTTL == r.actualTTL
  {
    reply.(usableTTL := reply.actualTTL)
  }

  /**
   * `remoteCacheProvider(remote, user)` invoked for `key`: the remote's
   * `GetOrProvide`, which runs `user` with its reply stored as `ForRemote`.
   * Value and error are the remote's; the TTLs are `user`'s own if the remote
   * ran it, and zero otherwise.
   */
  function RemoteCacheProvider<K, V>(remote: P.State<K, V>, user: K -> Pv.Reply<V>, key: K, now: Time, later: Time): (r: (P.State<K, V>, Pv.Reply<V>))
    ensures var a := P.Provide(remote, key, k => ForRemote(user(k)), now, later);
      r.0 == a.state && r.1.value == a.value && r.1.err == a.err
    ensures r.0.calls == remote.calls + 1 ==> r.1 == user(key)
    ensures r.0.calls == remote.calls ==> r.1.actualTTL == 0 && r.1.usableTTL == 0
    ensures r.0.calls in {remote.calls, remote.calls + 1}
  {
    var a := P.Provide(remote, key, k => ForRemote(user(k)), now, later);
    var ran := P.Decide(P.Lookup(remote.store, key, now), now) == Miss;
    var reply := user(key);
    (a.state, Pv.Reply(a.value, if ran then reply.actualTTL else 0, if ran then reply.usableTTL else 0, a.err))
  }

  /**
   * main.go's `FixedTTLProvider`: the fixed-TTL provider of
   * lib/pkg/sweet/providers.go behind the remote cache. When the remote runs
   * it, `simple`'s value and error come back with the positive TTL pair on
   * success and the negative pair on failure; otherwise both TTLs are zero.
   */
  function FixedTTLProvider<K(!new), V>(remote: P.State<K, V>, actualTTL: Duration, usableTTL: Duration,
                                        negActualTTL: Duration, negUsableTTL: Duration,
                                        simple: K -> Pv.Answer<V>, key: K, now: Time, later: Time): (r: (P.State<K, V>, Pv.Reply<V>))
    ensures r.0.calls in {remote.calls, remote.calls + 1}
    ensures r.0.calls == remote.calls + 1 ==>
      && r.1.value == simple(key).value && r.1.err == simple(key).err
      && (r.1.actualTTL, r.1.usableTTL) == (if simple(key).err.None? then (actualTTL, usableTTL) else (negActualTTL, negUsableTTL))
    ensures r.0.calls == remote.calls ==> r.1.actualTTL == 0 && r.1.usableTTL == 0
  {
    RemoteCacheProvider(remote, Pv.FixedTTLProvider(actualTTL, usableTTL, negActualTTL, negUsableTTL, simple), key, now, later)
  }

  /**
   * main.go's `SimpleFixedTTLProvider`: when the remote runs it, the usable
   * TTL is chosen by the outcome and the actual TTL is half of it (Go's
   * truncating division); otherwise both TTLs are zero.
   */
  function SimpleFixedTTLProvider<K(!new), V>(remote: P.State<K, V>, usableTTL: Duration, negUsableTTL: Duration,
                                              simple: K -> Pv.Answer<V>, key: K, now: Time, later: Time): (r: (P.State<K, V>, Pv.Reply<V>))
    ensures r.0.calls in {remote.calls, remote.calls + 1}
    ensures r.0.calls == remote.calls + 1 ==>
      var usable := if simple(key).err.None? then usableTTL else negUsableTTL;
      && r.1.value == simple(key).value && r.1.err == simple(key).err
      && r.1.usableTTL == usable && r.1.actualTTL == Pv.GoHalf(usable)
    ensures r.0.calls == remote.calls ==> r.1.actualTTL == 0 && r.1.usableTTL == 0
  {
    FixedTTLProvider(remote, Pv.GoHalf(usableTTL), usableTTL, Pv.GoHalf(negUsableTTL), negUsableTTL, simple, key, now, later)
  }

  /**
   * On a remote miss, the remote stores the user's reply with both instants
   * at `later + actualTTL`: it is fresh until then and a miss afterwards,
   * never in a stale-but-usable window.
   */
  lemma {:induction false} RemoteNeverServesStale<K, V>(remote: P.State<K, V>, user: K -> Pv.Reply<V>, key: K, now: Time, later: Time, e: Duration)
    requires P.Decide(P.Lookup(remote.store, key, now), now) == Miss
    requires 0 <= user(key).actualTTL && 0 <= e
    ensures var r := RemoteCacheProvider(remote, user, key, now, later);
      var found := P.Lookup(r.0.store, key, later + e);
      && P.Decide(found, later + e) == (if e < user(key).actualTTL then Hit else Miss)
      && (e < user(key).actualTTL ==> found == Some(P.CacheItem(user(key).value, user(key).err,
                                                                 later + user(key).actualTTL, later + user(key).actualTTL)))
  {
    P.Timeline(remote.store, key, ForRemote(user(key)), later, e);
  }

  /**
   * `FixedTTLProvider` on a remote miss: one call of `simple`, whose value
   * and error come back with the positive TTLs on success and the negative
   * TTLs on failure. On a remote hit `simple` is not called and both TTLs are zero.
   */
  lemma FixedTTLThroughRemote<K(!new), V>(remote: P.State<K, V>, a: Duration, u: Duration, na: Duration, nu: Duration,
                                          simple: K -> Pv.Answer<V>, key: K, now: Time, later: Time)
    ensures var r := FixedTTLProvider(remote, a, u, na, nu, simple, key, now, later);
      var miss := P.Decide(P.Lookup(remote.store, key, now), now) == Miss;
      && (miss ==> r.0.calls == remote.calls + 1 && r.1.value == simple(key).value && r.1.err == simple(key).err
                   && (r.1.actualTTL, r.1.usableTTL) == (if simple(key).err.None? then (a, u) else (na, nu)))
      && (!miss ==> r.0.calls == remote.calls && r.1.actualTTL == 0 && r.1.usableTTL == 0
                    && r.1.value == P.Lookup(remote.store, key, now).value.value
                    && r.1.err == P.Lookup(remote.store, key, now).value.err)
  {
  }

  /**
   * `SimpleFixedTTLProvider` on a remote miss: the caller gets the usable TTL
   * chosen by the outcome and half of it as actual TTL, while the remote keeps
   * the entry for only that half.
   */
  lemma {:induction false} SimpleFixedHalvesRemoteLife<K(!new), V>(remote: P.State<K, V>, u: Duration, nu: Duration,
                                                                  simple: K -> Pv.Answer<V>, key: K, now: Time, later: Time, e: Duration)
    requires P.Decide(P.Lookup(remote.store, key, now), now) == Miss
    requires 0 <= u && 0 <= nu && 0 <= e
    ensures var r := SimpleFixedTTLProvider(remote, u, nu, simple, key, now, later);
      var usable := if simple(key).err.None? then u else nu;
      && r.1.usableTTL == usable && r.1.actualTTL == Pv.GoHalf(usable)
      && P.Decide(P.Lookup(r.0.store, key, later + e), later + e) == (if e < Pv.GoHalf(usable) then Hit else Miss)
  {
    var user := Pv.FixedTTLProvider(Pv.GoHalf(u), u, Pv.GoHalf(nu), nu, simple);
    RemoteNeverServesStale(remote, user, key, now, later, e);
  }

  /** `remoteCacheProvider`'s closure run against a remote cache object. */
  method InvokeRemoteCacheProvider<K, V>(remote: P.Cache<K, V>, user: K -> Pv.Reply<V>, key: K, now: Time, later: Time) returns (r: Pv.Reply<V>)
    modifies remote
    ensures (remote.Snapshot(), r) == RemoteCacheProvider(old(remote.Snapshot()), user, key, now, later)
  {
    var callsBefore := remote.calls;
    var v, err := remote.GetOrProvide(key, k => ForRemote(user(k)), now, later);
    // the TTLs captured from `user` are set only if the remote ran it
    var newActualTTL, newUsableTTL := 0, 0;
    if remote.calls != callsBefore {
      newActualTTL, newUsableTTL := user(key).actualTTL, user(key).usableTTL;
    }
    r := Pv.Reply(v, newActualTTL, newUsableTTL, err);
  }
}
