/** The classification every single-tier cache applies to an entry it found. */
module Freshness {
  import opened Prelude

  /** Serve the entry; serve it and schedule a background refresh; or update synchronously. */
  datatype Decision = Hit | Refresh | Miss

  /** An entry is fresh before `actual`, stale but usable before `usable`, and expired from then on. */
  function Classify(actual: Time, usable: Time, now: Time): (r: Decision)
    ensures r == Hit <==> now < actual
    ensures r == Refresh <==> actual <= now < usable
    ensures r == Miss <==> actual <= now && usable <= now
  {
    if now < actual then Hit else if now < usable then Refresh else Miss
  }
}
