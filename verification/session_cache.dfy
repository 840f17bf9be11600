/**
 The session cache (a Redis instance) as a map from key to an entry that carries
 the stored value and the instant the key expires. A key is present at a given
 clock reading while that instant lies in the future.
 */
module SessionCache {

  /** A cached value: a string, or a value of some other type. */
  datatype Value = Str(text: string) | NonStr

  datatype Entry = Entry(value: Value, expiresAt: int)

  type Cache = map<string, Entry>

  /** EXISTS: the key is stored and has not expired at `clock`. */
  predicate Live(cache: Cache, key: string, clock: int)
  {
    key in cache && clock < cache[key].expiresAt
  }

  /** SET key value with a time-to-live, at `clock`. */
  function Set(cache: Cache, key: string, value: string, ttl: int, clock: int): (cache': Cache)
    ensures key in cache' && cache'[key] == Entry(Str(value), clock + ttl)
    ensures ttl > 0 ==> Live(cache', key, clock)
    ensures forall k :: k != key ==> (k in cache' <==> k in cache)
    ensures forall k :: k != key && k in cache ==> cache'[k] == cache[k]
  {
    cache[key := Entry(Str(value), clock + ttl)]
  }

  /** A key set with a positive time-to-live stays live strictly before the
      time-to-live has elapsed, and is gone from then on. */
  lemma SetExpiresAfterTtl(cache: Cache, key: string, value: string, ttl: int, clock: int, later: int)
    requires ttl > 0 && clock <= later
    ensures Live(Set(cache, key, value, ttl, clock), key, later) <==> later < clock + ttl
  {
  }
}
