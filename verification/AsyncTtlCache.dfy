/** The embedding cache of app/core/cache.py: its lock-guarded sections.

    Each method is one section the source runs while holding `self._lock`, with
    no `await` inside it, so it is atomic. `now` is the value `self._clock()`
    returns in that section. An `anyio.Event` is named by the caller that made it.
 */
module AsyncTtlCache {
  import opened Wrappers
  import opened OrderedDict
  import Lru = LruStore

  /** Everything the lock guards. */
  datatype View<K, V> = View(
    entries: Lru.Table<K, V>,
    loading: map<K, nat>,
    hits: nat,
    misses: nat)

  /** What a caller of `get_or_load` finds under the lock. */
  datatype Looked<V> = Cached(value: V) | InFlight(event: nat) | Claimed

  function AfterRead<K(==), V>(c: View<K, V>, k: K, now: real): View<K, V> {
    var hit := Lru.Peek(c.entries, k, now).Some?;
    View(Lru.Read(c.entries, k, now), c.loading,
         if hit then c.hits + 1 else c.hits, if hit then c.misses else c.misses + 1)
  }

  function AfterWrite<K(==), V>(c: View<K, V>, max: nat, ttl: real, k: K, v: V, now: real): View<K, V> {
    c.(entries := Lru.Write(c.entries, max, k, Lru.Slot(v, Some(now + ttl))))
  }

  function Look<K(==), V>(c: View<K, V>, k: K, now: real): Looked<V> {
    match Lru.Peek(c.entries, k, now)
    case Some(v) => Cached(v)
    case None => if k in c.loading then InFlight(c.loading[k]) else Claimed
  }

  function AfterLook<K(==), V>(c: View<K, V>, k: K, me: nat, now: real): View<K, V> {
    var read := AfterRead(c, k, now);
    read.(loading := if Look(c, k, now).Claimed? then c.loading[k := me] else c.loading)
  }

  function AfterPop<K(==), V>(c: View<K, V>, k: K): View<K, V> {
    c.(loading := c.loading - {k})
  }

  class AsyncTTLCache<K(==), V> {
    const maxSize: nat
    const ttl: real
    var entries: Lru.Table<K, V>
    var loading: map<K, nat>
    var hits: nat
    var misses: nat

    ghost function Contents(): View<K, V>
      reads this
    {
      View(entries, loading, hits, misses)
    }

    constructor (maxSize: nat, ttl: real)
      ensures this.maxSize == maxSize && this.ttl == ttl
      ensures Contents() == View(Empty(), map[], 0, 0)
    {
      this.maxSize, this.ttl := maxSize, ttl;
      entries, loading, hits, misses := Empty(), map[], 0, 0;
    }

    predicate Enabled() {
      maxSize > 0
    }

    method Read(key: K, now: real) returns (r: Option<V>)
      modifies this
      ensures r == Lru.Peek(old(entries), key, now)
      ensures Contents() == AfterRead(old(Contents()), key, now)
    {
      var entry := Find(entries, key);
      if entry == None {
        misses := misses + 1;
        return None;
      }
      if Lru.Expired(entry.value, now) {
        entries := Without(entries, key);
        misses := misses + 1;
        return None;
      }
      entries := PutLast(entries, key, entry.value);
      hits := hits + 1;
      return Some(entry.value.value);
    }

    method Write(key: K, value: V, now: real)
      modifies this
      ensures Contents() == AfterWrite(old(Contents()), maxSize, ttl, key, value, now)
    {
      entries := PutLast(entries, key, Lru.Slot(value, Some(now + ttl)));
      while Size(entries) > maxSize
        invariant loading == old(loading) && hits == old(hits) && misses == old(misses)
        invariant Trim(entries, maxSize) == Lru.Write(old(entries), maxSize, key, Lru.Slot(value, Some(now + ttl)))
        decreases Size(entries)
      {
        entries := PopFirst(entries);
      }
    }

    method Get(key: K, now: real) returns (r: Option<V>)
      modifies this
      ensures r == Lru.Peek(old(entries), key, now)
      ensures Contents() == AfterRead(old(Contents()), key, now)
    {
      r := Read(key, now);
    }

    method Set(key: K, value: V, now: real)
      modifies this
      ensures Contents() == if maxSize > 0 then AfterWrite(old(Contents()), maxSize, ttl, key, value, now)
                            else old(Contents())
    {
      if !Enabled() {
        return;
      }
      Write(key, value, now);
    }

    /** The locked section at the head of the `get_or_load` loop. */
    method LookOrClaim(key: K, me: nat, now: real) returns (r: Looked<V>)
      modifies this
      ensures r == Look(old(Contents()), key, now)
      ensures Contents() == AfterLook(old(Contents()), key, me, now)
    {
      var cached := Read(key, now);
      if cached.Some? {
        return Cached(cached.value);
      }
      if key in loading {
        return InFlight(loading[key]);
      }
      loading := loading[key := me];
      return Claimed;
    }

    /** The locked section of the `finally` clause. */
    method PopLoading(key: K) returns (waiters: Option<nat>)
      modifies this
      ensures waiters == if key in old(loading) then Some(old(loading)[key]) else None
      ensures Contents() == AfterPop(old(Contents()), key)
    {
      waiters := if key in loading then Some(loading[key]) else None;
      loading := loading - {key};
    }

    method Clear()
      modifies this
      ensures Contents() == old(Contents()).(entries := Empty())
    {
      entries := Empty();
    }
  }

  /** What is written is read back for as long as its time to live, and not a moment longer. */
  lemma WrittenLives<K, V>(c: View<K, V>, max: nat, ttl: real, k: K, v: V, now: real, later: real)
    requires Valid(c.entries) && max > 0
    ensures Look(AfterWrite(c, max, ttl, k, v, now), k, later).Cached? <==> later - now < ttl
    ensures later - now < ttl ==> Look(AfterWrite(c, max, ttl, k, v, now), k, later) == Cached(v)
  {
    Lru.WrittenStays(c.entries, max, k, Lru.Slot(v, Some(now + ttl)));
  }
}
