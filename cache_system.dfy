/** The TTL cache (`SimpleCache`) and the `cached_method` wrapper: a
    capacity-bounded table of timestamped values in insertion order, evicting
    the entry with the oldest timestamp, with hit and miss counters. The
    clock is a parameter (`now`) of every operation that reads it. */
module Cache {
  import opened Common
  import opened Dicts

  /** `CACHE_CONFIG`, used for the card information cache. */
  const CardInfoMaxSize: int := 1000
  const CardInfoTtlSeconds: int := 600

  /** A cached value and the time it was stored. */
  datatype Entry<V> = Entry(value: V, timestamp: real)

  /** The position of `min(cache.keys(), key=lambda k: cache[k][1])`: the
      first entry, in insertion order, with the smallest timestamp. */
  function OldestIndex<V>(d: Dict<string, Entry<V>>): (i: nat)
    requires |d| > 0
    ensures i < |d|
    ensures forall j :: 0 <= j < |d| ==> d[i].1.timestamp <= d[j].1.timestamp
    ensures forall j :: 0 <= j < i ==> d[i].1.timestamp < d[j].1.timestamp
  {
    ArgMax(d, (e: (string, Entry<V>)) => -e.1.timestamp)
  }

  /** The table after `set(key, value)` at time `now`, or `None` where
      `min()` of an empty table raises `ValueError` (only when
      `max_size <= 0`). */
  function SetOf<V>(d: Dict<string, Entry<V>>, maxSize: int, key: string, value: V, now: real)
    : Option<Dict<string, Entry<V>>>
  {
    if |d| >= maxSize then
      if d == [] then None
      else Some(Put(Remove(d, d[OldestIndex(d)].0), key, Entry(value, now)))
    else Some(Put(d, key, Entry(value, now)))
  }

  /** `set` stores `value` at time `now` under `key` and keeps every other
      key, except that at capacity it first removes exactly one entry, the
      first one with the smallest timestamp, even when `key` is already
      present. It fails only on an empty table with `max_size <= 0`, and
      with `max_size >= 1` it never grows the table beyond `max_size`. */
  lemma SetProperties<V>(d: Dict<string, Entry<V>>, maxSize: int, key: string, value: V, now: real, k: string)
    requires DistinctKeys(d)
    ensures SetOf(d, maxSize, key, value, now).None? <==> d == [] && maxSize <= 0
    ensures var r := SetOf(d, maxSize, key, value, now);
            r.Some? ==> DistinctKeys(r.value) && Lookup(r.value, key) == Some(Entry(value, now))
    ensures var r := SetOf(d, maxSize, key, value, now);
            r.Some? && |d| < maxSize && k != key ==>
              Lookup(r.value, k) == Lookup(d, k) && |r.value| == |d| + (if HasKey(d, key) then 0 else 1)
    ensures var r := SetOf(d, maxSize, key, value, now);
            r.Some? && |d| >= maxSize ==>
              var oldest := d[OldestIndex(d)].0;
              (forall j :: 0 <= j < |d| ==> Get(d, oldest, Entry(value, now)).timestamp <= d[j].1.timestamp)
              && (k != key ==> Lookup(r.value, k) == (if k == oldest then None else Lookup(d, k)))
              && |r.value| == |d| - (if HasKey(d, key) && key != oldest then 1 else 0)
    ensures var r := SetOf(d, maxSize, key, value, now);
            r.Some? && maxSize >= 1 && |d| <= maxSize ==> |r.value| <= maxSize
  {
    var e := Entry(value, now);
    if |d| >= maxSize && d != [] {
      var i := OldestIndex(d);
      var oldest := d[i].0;
      assert Find(d, oldest) == i;
      var rest := Remove(d, oldest);
      GetRemove(d, oldest, k, e);
      GetRemove(d, oldest, key, e);
      PutDistinct(rest, key, e);
      GetPut(rest, key, e, k, e);
      GetPut(rest, key, e, key, e);
      PutSize(rest, key, e);
    } else if |d| < maxSize {
      PutDistinct(d, key, e);
      GetPut(d, key, e, k, e);
      GetPut(d, key, e, key, e);
      PutSize(d, key, e);
    }
  }

  lemma PutSize<K, V>(d: Dict<K, V>, k: K, v: V)
    ensures |Put(d, k, v)| == |d| + (if HasKey(d, k) then 0 else 1)
  {
  }

  /** What `get(key)` at time `now` returns, and the table after it: a
      present entry no older than the TTL (inclusive) is a hit; an expired
      one is deleted; both other cases are misses. */
  function GetOf<V>(d: Dict<string, Entry<V>>, key: string, now: real, ttlSeconds: int)
    : (r: (Option<V>, Dict<string, Entry<V>>))
    ensures r.0.Some? ==> HasKey(d, key) && r.1 == d
    ensures r.0.None? && HasKey(d, key) ==> r.1 == Remove(d, key)
    ensures !HasKey(d, key) ==> r == (None, d)
  {
    var e := Lookup(d, key);
    if e.None? then (None, d)
    else if now - e.value.timestamp <= ttlSeconds as real then (Some(e.value.value), d)
    else (None, Remove(d, key))
  }

  /** A value read back at the time it was stored is the value stored
      (for a TTL that is not negative). */
  lemma SetThenGet<V>(d: Dict<string, Entry<V>>, maxSize: int, ttlSeconds: int, key: string, value: V, now: real)
    requires DistinctKeys(d) && ttlSeconds >= 0
    requires SetOf(d, maxSize, key, value, now).Some?
    ensures GetOf(SetOf(d, maxSize, key, value, now).value, key, now, ttlSeconds).0 == Some(value)
  {
    SetProperties(d, maxSize, key, value, now, key);
  }

  /** An entry older than the TTL is never returned, and is gone afterwards. */
  lemma ExpiredIsMiss<V>(d: Dict<string, Entry<V>>, key: string, now: real, ttlSeconds: int)
    requires DistinctKeys(d) && HasKey(d, key)
    requires now - Lookup(d, key).value.timestamp > ttlSeconds as real
    ensures GetOf(d, key, now, ttlSeconds).0.None?
    ensures !HasKey(GetOf(d, key, now, ttlSeconds).1, key)
    ensures |GetOf(d, key, now, ttlSeconds).1| == |d| - 1
  {
    GetRemove(d, key, key, Lookup(d, key).value);
  }

  /** `hits / total if total > 0 else 0`. */
  function HitRate(hits: nat, misses: nat): (r: real)
    ensures 0.0 <= r <= 1.0
    ensures hits + misses == 0 ==> r == 0.0
    ensures hits == 0 ==> r == 0.0
    ensures hits + misses > 0 ==> r * (hits + misses) as real == hits as real
  {
    var total := hits + misses;
    if total > 0 then
      ShareBounds(hits, total);
      hits as real / total as real
    else 0.0
  }

  /** The result of `get_stats`. */
  datatype Stats = Stats(size: nat, maxSize: int, hitRate: real, totalRequests: nat)

  class SimpleCache<V> {
    const maxSize: int
    const ttlSeconds: int
    var entries: Dict<string, Entry<V>>
    var hits: nat
    var misses: nat

    /** Keys are distinct, and with `max_size >= 1` the table never holds more
        than `max_size` entries. */
    predicate Valid()
      reads this
    {
      DistinctKeys(entries) && (maxSize >= 1 ==> |entries| <= maxSize)
    }

    /** `SimpleCache(max_size=500, ttl_seconds=300)`. */
    constructor (maxSize: int := 500, ttlSeconds: int := 300)
      ensures Valid()
      ensures this.maxSize == maxSize && this.ttlSeconds == ttlSeconds
      ensures entries == [] && hits == 0 && misses == 0
    {
      this.maxSize := maxSize;
      this.ttlSeconds := ttlSeconds;
      entries := [];
      hits := 0;
      misses := 0;
    }

    /** `get(key)` at time `now`: exactly one of the two counters goes up. */
    method Get(key: string, now: real) returns (r: Option<V>)
      requires Valid()
      modifies this
      ensures Valid()
      ensures (r, entries) == GetOf(old(entries), key, now, ttlSeconds)
      ensures r.Some? ==> hits == old(hits) + 1 && misses == old(misses)
      ensures r.None? ==> misses == old(misses) + 1 && hits == old(hits)
    {
      var e := Lookup(entries, key);
      if e.Some? && now - e.value.timestamp <= ttlSeconds as real {
        hits := hits + 1;
        r := Some(e.value.value);
      } else {
        if e.Some? {
          GetRemove(entries, key, key, e.value);
          entries := Remove(entries, key);
        }
        misses := misses + 1;
        r := None;
      }
    }

    /** `set(key, value)` at time `now`; `false` where `min()` raises. */
    method Set(key: string, value: V, now: real) returns (ok: bool)
      requires Valid()
      modifies this
      ensures Valid()
      ensures ok == SetOf(old(entries), maxSize, key, value, now).Some?
      ensures ok ==> entries == SetOf(old(entries), maxSize, key, value, now).value
      ensures !ok ==> entries == old(entries)
      ensures hits == old(hits) && misses == old(misses)
    {
      SetProperties(entries, maxSize, key, value, now, key);
      if |entries| >= maxSize {
        if entries == [] {
          return false;
        }
        var oldest := entries[OldestIndex(entries)].0;
        entries := Remove(entries, oldest);
      }
      entries := Put(entries, key, Entry(value, now));
      ok := true;
    }

    /** `clear`. */
    method Clear()
      modifies this
      ensures Valid()
      ensures entries == [] && hits == 0 && misses == 0
    {
      entries := [];
      hits := 0;
      misses := 0;
    }

    /** `get_stats`. */
    method GetStats() returns (s: Stats)
      ensures s == Stats(|entries|, maxSize, HitRate(hits, misses), hits + misses)
      ensures 0.0 <= s.hitRate <= 1.0 && (s.totalRequests == 0 ==> s.hitRate == 0.0)
    {
      var total := hits + misses;
      var hitRate := if total > 0 then hits as real / total as real else 0.0;
      s := Stats(|entries|, maxSize, hitRate, total);
    }
  }

  /** The card information cache (`card_info_cache`). */
  method CardInfoCache<V>() returns (c: SimpleCache<V>)
    ensures fresh(c) && c.Valid() && c.entries == [] && c.hits == 0 && c.misses == 0
    ensures c.maxSize == CardInfoMaxSize && c.ttlSeconds == CardInfoTtlSeconds
  {
    c := new SimpleCache(CardInfoMaxSize, CardInfoTtlSeconds);
  }

  /** The result of a call through `cached_method`; `raised` where storing
      the result raises. */
  datatype CallResult<V> = CallResult(result: Option<V>, raised: bool)

  /** The wrapper of `cached_method` for one call whose cache key is `key`:
      a cached value is returned as is; otherwise the wrapped function's
      result `computed` is returned, and stored (at time `later`) only when
      it is not `None`. The wrapped function is not part of this model: its
      result is a parameter. */
  method CachedCall<V>(cache: SimpleCache<V>, key: string, computed: Option<V>, now: real, later: real)
    returns (r: CallResult<V>)
    requires cache.Valid()
    modifies cache
    ensures cache.Valid()
    ensures var (cached, afterGet) := GetOf(old(cache.entries), key, now, cache.ttlSeconds);
            (cached.Some? ==> r == CallResult(cached, false) && cache.entries == afterGet)
            && (cached.None? && computed.None? ==> r == CallResult(None, false) && cache.entries == afterGet)
            && (cached.None? && computed.Some? ==>
                  var stored := SetOf(afterGet, cache.maxSize, key, computed.value, later);
                  r.raised == stored.None?
                  && (stored.Some? ==> r.result == computed && cache.entries == stored.value)
                  && (stored.None? ==> cache.entries == afterGet))
  {
    var cached := cache.Get(key, now);
    if cached.Some? {
      return CallResult(cached, false);
    }
    if computed.Some? {
      var ok := cache.Set(key, computed.value, later);
      if !ok {
        return CallResult(None, true);
      }
    }
    r := CallResult(computed, false);
  }
}
