/**
 * Value providers and the fixed-TTL helpers that build them
 * (lib/pkg/sweet/providers.go; the provider shape is that of
 * pkg/sweet/cache.go). `WithRemoteCache` needs a cache to ask and is modelled
 * beside the two-level cache, in module SimpleTwoLevel.
 */
module Providers {
  import opened Prelude

  /** What a `ValueProvider` returns: the value, its two relative TTLs and an error (None for nil). */
  datatype Reply<V> = Reply(value: V, actualTTL: Duration, usableTTL: Duration, err: Option<Error>)

  /** What a `SimpleValueProvider` returns: a value and an error. */
  datatype Answer<V> = Answer(value: V, err: Option<Error>)

  /** Go's `d / 2` on a `time.Duration`: integer division truncating toward zero. */
  function GoHalf(d: Duration): (h: Duration)
    ensures 0 <= d ==> 0 <= h && 2 * h <= d < 2 * h + 2
    ensures d < 0 ==> h <= 0 && 2 * h - 2 < d <= 2 * h
  {
    if d >= 0 then d / 2 else -((-d) / 2)
  }

  /** Truncation is symmetric around zero, unlike Dafny's Euclidean `/`. */
  lemma GoHalfOdd(d: Duration)
    ensures GoHalf(-d) == -GoHalf(d)
  {
  }

  /** The TTLs a fixed-TTL provider attaches to one answer: the negative pair on error, the positive pair otherwise. */
  function Fixed<V>(actualTTL: Duration, usableTTL: Duration, negActualTTL: Duration, negUsableTTL: Duration, a: Answer<V>): Reply<V>
  {
    if a.err.Some? then Reply(a.value, negActualTTL, negUsableTTL, a.err)
    else Reply(a.value, actualTTL, usableTTL, a.err)
  }

  /**
   * `FixedTTLProvider`: each invocation calls `simple` once and passes its
   * value and error through, with the positive TTLs on success and the
   * negative TTLs on failure.
   */
  function FixedTTLProvider<K(!new), V>(actualTTL: Duration, usableTTL: Duration, negActualTTL: Duration, negUsableTTL: Duration,
                                  simple: K -> Answer<V>): (p: K -> Reply<V>)
    ensures forall k :: p(k).value == simple(k).value && p(k).err == simple(k).err
    ensures forall k :: simple(k).err.None? ==> p(k).actualTTL == actualTTL && p(k).usableTTL == usableTTL
    ensures forall k :: simple(k).err.Some? ==> p(k).actualTTL == negActualTTL && p(k).usableTTL == negUsableTTL
  {
    k => Fixed(actualTTL, usableTTL, negActualTTL, negUsableTTL, simple(k))
  }

  /**
   * `SimpleFixedTTLProvider`: the actual TTLs are half the usable ones
   * (Go's truncating division), for success and failure alike.
   */
  function SimpleFixedTTLProvider<K(!new), V>(usableTTL: Duration, negUsableTTL: Duration, simple: K -> Answer<V>): (p: K -> Reply<V>)
    ensures forall k :: p(k).value == simple(k).value && p(k).err == simple(k).err
    ensures forall k :: p(k).actualTTL == GoHalf(p(k).usableTTL)
    ensures forall k :: p(k).usableTTL == if simple(k).err.None? then usableTTL else negUsableTTL
  {
    FixedTTLProvider(GoHalf(usableTTL), usableTTL, GoHalf(negUsableTTL), negUsableTTL, simple)
  }

  /**
   * With non-negative usable TTLs the halving default never lets the fresh
   * window outlast the usable one, and the grace window between them is at
   * least as long as the fresh window.
   */
  lemma HalvedWindowsOrdered<K(!new), V>(usableTTL: Duration, negUsableTTL: Duration, simple: K -> Answer<V>, k: K)
    requires usableTTL >= 0 && negUsableTTL >= 0
    ensures var r := SimpleFixedTTLProvider(usableTTL, negUsableTTL, simple)(k);
      0 <= r.actualTTL <= r.usableTTL && r.actualTTL <= r.usableTTL - r.actualTTL
  {
  }

  /** A negative usable TTL of at least two nanoseconds makes the halved actual TTL exceed it. */
  lemma HalvedWindowsReversedWhenNegative<K(!new), V>(usableTTL: Duration, negUsableTTL: Duration, simple: K -> Answer<V>, k: K)
    requires usableTTL <= -2 && simple(k).err.None?
    ensures var r := SimpleFixedTTLProvider(usableTTL, negUsableTTL, simple)(k);
      r.usableTTL < r.actualTTL
  {
  }
}
