/** A counter in the cache: it counts until the cache forgets it. */
module Caches {
  import opened Sums

  /** A cached count and the moment the cache forgets it. */
  datatype Counter = Counter(count: nat, expiresAt: real)

  /** cache.get(key, 0): an entry that has expired is not there. */
  function Live(entry: Option<Counter>, now: real): (count: nat)
    ensures count > 0 ==> entry.Some? && now < entry.value.expiresAt
  {
    if entry.Some? && now < entry.value.expiresAt then entry.value.count else 0
  }
}
