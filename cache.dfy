/**
 * The in-memory TTL cache (src/utils/cache.ts).
 *
 * The cache keeps a map from string keys to entries that carry an absolute
 * expiry time in milliseconds. Reads are lazy: an expired entry is removed the
 * first time it is read. A periodic sweep removes every expired entry.
 * The clock (`Date.now()`) is a parameter `now` of each operation that reads it.
 */
module Cache {
  import opened Wrappers

  datatype Entry<T> = Entry(value: T, expiry: int)

  /** Default time to live of a cache created without one: five minutes. */
  const DefaultTTLMs: int := 5 * 60 * 1000
  /** Time to live of the three caches the server creates. */
  const RouteTTLMs: int := 5 * 60 * 1000
  const IsochroneTTLMs: int := 10 * 60 * 1000
  const HealthTTLMs: int := 30 * 1000

  /**
   * `ttlMs || defaultTTL`: an absent TTL and a TTL of zero are both falsy and
   * fall back to the default; any other TTL, negative ones included, is used.
   */
  function EffectiveTTL(ttlMs: Option<int>, defaultTTL: int): int {
    match ttlMs
    case Some(t) => if t != 0 then t else defaultTTL
    case None => defaultTTL
  }

  /** An entry is still served while the clock has not passed its expiry. */
  predicate Live<T>(e: Entry<T>, now: int) {
    !(now > e.expiry)
  }

  /** What a read of `key` at time `now` returns. */
  function Lookup<T>(m: map<string, Entry<T>>, key: string, now: int): Option<T> {
    if key in m && Live(m[key], now) then Some(m[key].value) else None
  }

  /** The map after a read of `key` at time `now`: an expired entry is dropped. */
  function AfterGet<T>(m: map<string, Entry<T>>, key: string, now: int): map<string, Entry<T>> {
    if key in m && !Live(m[key], now) then m - {key} else m
  }

  /** The map after a write of `value` under `key` with the given expiry. */
  function Store<T>(m: map<string, Entry<T>>, key: string, value: T, expiry: int): map<string, Entry<T>> {
    m[key := Entry(value, expiry)]
  }

  /** The map after a sweep at time `now`: only live entries remain. */
  function Sweep<T>(m: map<string, Entry<T>>, now: int): map<string, Entry<T>> {
    map k | k in m && Live(m[k], now) :: m[k]
  }

  /** The sweep half done: keys still pending are kept whatever their expiry. */
  function SweepExcept<T>(m: map<string, Entry<T>>, pending: set<string>, now: int): map<string, Entry<T>> {
    map k | k in m && (k in pending || Live(m[k], now)) :: m[k]
  }

  datatype Stats = Stats(size: nat, defaultTTL: int)

  class MemoryCache<T> {
    var entries: map<string, Entry<T>>
    var defaultTTL: int

    constructor(defaultTTLMs: int := DefaultTTLMs)
      ensures entries == map[] && defaultTTL == defaultTTLMs
    {
      entries := map[];
      defaultTTL := defaultTTLMs;
    }

    method Set(key: string, value: T, ttlMs: Option<int>, now: int)
      modifies this
      ensures entries == Store(old(entries), key, value, now + EffectiveTTL(ttlMs, old(defaultTTL)))
      ensures defaultTTL == old(defaultTTL)
    {
      var expiry := now + EffectiveTTL(ttlMs, defaultTTL);
      entries := entries[key := Entry(value, expiry)];
    }

    method Get(key: string, now: int) returns (r: Option<T>)
      modifies this
      ensures r == Lookup(old(entries), key, now)
      ensures entries == AfterGet(old(entries), key, now)
      ensures defaultTTL == old(defaultTTL)
    {
      if key !in entries {
        return None;
      }
      var entry := entries[key];
      if now > entry.expiry {
        entries := entries - {key};
        return None;
      }
      return Some(entry.value);
    }

    method Delete(key: string) returns (existed: bool)
      modifies this
      ensures existed <==> key in old(entries)
      ensures entries == old(entries) - {key}
      ensures defaultTTL == old(defaultTTL)
    {
      existed := key in entries;
      entries := entries - {key};
    }

    method Clear()
      modifies this
      ensures entries == map[] && Size() == 0
      ensures defaultTTL == old(defaultTTL)
    {
      entries := map[];
    }

    function Size(): nat
      reads this
    {
      |entries|
    }

    /** Removes every entry whose expiry has passed, one key at a time. */
    method Cleanup(now: int)
      modifies this
      ensures entries == Sweep(old(entries), now)
      ensures defaultTTL == old(defaultTTL)
    {
      ghost var start := entries;
      var pending := entries.Keys;
      while pending != {}
        invariant pending <= start.Keys
        invariant entries == SweepExcept(start, pending, now)
        invariant defaultTTL == old(defaultTTL)
        decreases pending
      {
        var key :| key in pending;
        if now > entries[key].expiry {
          entries := entries - {key};
        }
        pending := pending - {key};
      }
      assert entries == Sweep(start, now);
    }

    function GetStats(): (s: Stats)
      reads this
      ensures s.size == Size() && s.defaultTTL == defaultTTL
    {
      Stats(|entries|, defaultTTL)
    }
  }

  /** The three caches the server creates at load time, for routes, isochrones and health checks. */
  method ServerCaches<R, I, H>() returns (routes: MemoryCache<R>, isochrones: MemoryCache<I>, health: MemoryCache<H>)
    ensures fresh(routes) && fresh(isochrones) && fresh(health)
    ensures routes.entries == map[] && routes.defaultTTL == RouteTTLMs
    ensures isochrones.entries == map[] && isochrones.defaultTTL == IsochroneTTLMs
    ensures health.entries == map[] && health.defaultTTL == HealthTTLMs
  {
    routes := new MemoryCache(RouteTTLMs);
    isochrones := new MemoryCache(IsochroneTTLMs);
    health := new MemoryCache(HealthTTLMs);
  }

  // Properties of the operations, stated on the specification functions

  /** A value written with expiry `e` is read back exactly until time `e`, inclusive. */
  lemma LookupAfterStore<T>(m: map<string, Entry<T>>, key: string, value: T, expiry: int, t: int)
    ensures Lookup(Store(m, key, value, expiry), key, t).Some? <==> t <= expiry
    ensures t <= expiry ==> Lookup(Store(m, key, value, expiry), key, t) == Some(value)
  {
  }

  /** A write made at `now` with a TTL is served at `now + ttl` and gone one millisecond later. */
  lemma FreshEntryLifetime<T>(m: map<string, Entry<T>>, key: string, value: T, ttlMs: Option<int>, defaultTTL: int, now: int)
    ensures var e := now + EffectiveTTL(ttlMs, defaultTTL);
      && Lookup(Store(m, key, value, e), key, e) == Some(value)
      && Lookup(Store(m, key, value, e), key, e + 1) == None
  {
    var e := now + EffectiveTTL(ttlMs, defaultTTL);
    LookupAfterStore(m, key, value, e, e);
    LookupAfterStore(m, key, value, e, e + 1);
  }

  /** Absent and zero TTLs both mean the cache's default; any other TTL is used as given. */
  lemma FallbackTTL(ttlMs: Option<int>, defaultTTL: int)
    ensures EffectiveTTL(ttlMs, defaultTTL) == defaultTTL <==> ttlMs.None? || ttlMs.value == 0 || ttlMs.value == defaultTTL
    ensures ttlMs.Some? && ttlMs.value != 0 ==> EffectiveTTL(ttlMs, defaultTTL) == ttlMs.value
  {
  }

  /** A write touches no other key. */
  lemma StoreLeavesOthers<T>(m: map<string, Entry<T>>, key: string, value: T, expiry: int, k: string, t: int)
    requires k != key
    ensures Lookup(Store(m, key, value, expiry), k, t) == Lookup(m, k, t)
  {
  }

  /** Reading an expired entry removes it, and the size drops by one. */
  lemma ExpiredGetEvicts<T>(m: map<string, Entry<T>>, key: string, now: int)
    requires key in m && now > m[key].expiry
    ensures key !in AfterGet(m, key, now)
    ensures |AfterGet(m, key, now)| == |m| - 1
  {
  }

  /** Reading a live or missing entry leaves the map unchanged. */
  lemma LiveGetKeeps<T>(m: map<string, Entry<T>>, key: string, now: int)
    requires key !in m || now <= m[key].expiry
    ensures AfterGet(m, key, now) == m
  {
  }

  /** With a clock that does not go back, the lazy removal of a read can never be observed. */
  lemma LazyEvictionUnobservable<T>(m: map<string, Entry<T>>, key: string, now: int, k: string, t: int)
    requires now <= t
    ensures Lookup(AfterGet(m, key, now), k, t) == Lookup(m, k, t)
  {
  }

  /** After a sweep every remaining entry is live, and no entry was added. */
  lemma {:induction false} SweepKeepsLive<T>(m: map<string, Entry<T>>, now: int)
    ensures forall k :: k in Sweep(m, now) ==> k in m && Live(m[k], now)
    ensures forall k :: k in m && Live(m[k], now) ==> k in Sweep(m, now)
    ensures |Sweep(m, now)| <= |m|
  {
    assert Sweep(m, now).Keys <= m.Keys;
    SubsetCardinality(Sweep(m, now).Keys, m.Keys);
  }

  lemma {:induction false} SubsetCardinality<K>(a: set<K>, b: set<K>)
    requires a <= b
    ensures |a| <= |b|
    decreases b
  {
    if a != {} {
      var x :| x in a;
      SubsetCardinality(a - {x}, b - {x});
    }
  }

  /** With a clock that does not go back, a sweep changes no later read. */
  lemma SweepUnobservable<T>(m: map<string, Entry<T>>, now: int, k: string, t: int)
    requires now <= t
    ensures Lookup(Sweep(m, now), k, t) == Lookup(m, k, t)
  {
  }

  /** Sweeping twice at the same time is sweeping once. */
  lemma SweepIdempotent<T>(m: map<string, Entry<T>>, now: int)
    ensures Sweep(Sweep(m, now), now) == Sweep(m, now)
  {
  }

  /** A deleted key is never read again until it is written. */
  lemma DeleteForgets<T>(m: map<string, Entry<T>>, key: string, t: int)
    ensures Lookup(m - {key}, key, t) == None
    ensures forall k :: k != key ==> Lookup(m - {key}, k, t) == Lookup(m, k, t)
  {
  }
}
