/** The in-process cache backend: an LRU/TTL key-value half and a bounded vector index half.

    Each method is one section the source runs while holding `self._lock`; `now`
    is what `self._clock()` returns there.
 */
module CacheBackend {
  import opened Wrappers
  import opened OrderedDict
  import opened Vectors
  import opened CacheRecords
  import Lru = LruStore

  type Index = Dict<Key, Vector>

  /** Everything the lock guards. */
  datatype Store = Store(entries: Lru.Table<Key, Payload>, index: map<Versions, Index>)

  datatype Limits = Limits(maxEntries: nat, indexMax: nat)

  const NOTHING := Store(Empty(), map[])

  /** `expires_at`; zero is how the source writes "never". */
  function Deadline(ttl: real, now: real): Option<real> {
    if ttl > 0.0 && now + ttl != 0.0 then Some(now + ttl) else None
  }

  function IndexOf(st: Store, ns: Versions): Index {
    if ns in st.index then st.index[ns] else Empty()
  }

  function Pairs(d: Index): seq<(Key, Vector)> {
    seq(|d.order|, i requires 0 <= i < |d.order| =>
          (d.order[i], if d.order[i] in d.items then d.items[d.order[i]] else []))
  }

  function Fetched(st: Store, key: Key, now: real): Store {
    st.(entries := Lru.Apply(st.entries, 0, Lru.Get(key, now)))
  }

  function Put(lim: Limits, st: Store, key: Key, value: Payload, ttl: real, now: real): Store {
    st.(entries := Lru.Apply(st.entries, lim.maxEntries, Lru.Set(key, Lru.Slot(value, Deadline(ttl, now)))))
  }

  function Deleted(st: Store, key: Key): Store {
    st.(entries := Lru.Apply(st.entries, 0, Lru.Delete(key)))
  }

  function Indexed(lim: Limits, st: Store, ns: Versions, key: Key, vector: Vector): Store {
    st.(index := st.index[ns := Trim(PutLast(IndexOf(st, ns), key, vector), lim.indexMax)])
  }

  function Unindexed(st: Store, ns: Versions, key: Key): Store {
    if ns in st.index then st.(index := st.index[ns := Without(st.index[ns], key)]) else st
  }

  ghost predicate WfIndex(lim: Limits, index: map<Versions, Index>) {
    forall ns :: ns in index ==> Valid(index[ns]) && Size(index[ns]) <= lim.indexMax
  }

  /** Both halves stay within their bounds. */
  ghost predicate Wf(lim: Limits, st: Store) {
    Valid(st.entries) && Size(st.entries) <= lim.maxEntries && WfIndex(lim, st.index)
  }

  class InMemoryCacheBackend {
    const lim: Limits
    var entries: Lru.Table<Key, Payload>
    var index: map<Versions, Index>

    ghost function Contents(): Store
      reads this
    {
      Store(entries, index)
    }

    ghost predicate Sound()
      reads this
    {
      Wf(lim, Contents())
    }

    constructor (lim: Limits)
      ensures this.lim == lim && Contents() == NOTHING && Sound()
    {
      this.lim := lim;
      entries, index := Empty(), map[];
    }

    method Get(key: Key, now: real) returns (r: Option<Payload>)
      requires Sound()
      modifies this
      ensures Sound() && Contents() == Fetched(old(Contents()), key, now)
      ensures r == Lru.Peek(old(entries), key, now)
    {
      Lru.ReadEffect(entries, key, now);
      var entry := Find(entries, key);
      if entry == None {
        return None;
      }
      if Lru.Expired(entry.value, now) {
        entries := Without(entries, key);
        return None;
      }
      entries := PutLast(entries, key, entry.value);
      return Some(entry.value.value);
    }

    method Set(key: Key, value: Payload, ttl: real, now: real)
      requires Sound()
      modifies this
      ensures Sound() && Contents() == Put(lim, old(Contents()), key, value, ttl, now)
    {
      var slot := Lru.Slot(value, Deadline(ttl, now));
      Lru.WriteEffect(entries, lim.maxEntries, key, slot);
      entries := PutLast(entries, key, slot);
      while Size(entries) > lim.maxEntries
        invariant index == old(index)
        invariant Trim(entries, lim.maxEntries) == Lru.Write(old(entries), lim.maxEntries, key, slot)
        decreases Size(entries)
      {
        entries := PopFirst(entries);
      }
    }

    method Delete(key: Key)
      requires Sound()
      modifies this
      ensures Sound() && Contents() == Deleted(old(Contents()), key)
    {
      WithoutValid(entries, key);
      entries := Without(entries, key);
    }

    method IndexAdd(ns: Versions, key: Key, vector: Vector)
      requires Sound()
      modifies this
      ensures Sound() && Contents() == Indexed(lim, old(Contents()), ns, key, vector)
    {
      var vectors := if ns in index then index[ns] else Empty();
      PutLastValid(vectors, key, vector);
      vectors := PutLast(vectors, key, vector);
      TrimValid(vectors, lim.indexMax);
      while Size(vectors) > lim.indexMax
        invariant Contents() == old(Contents())
        invariant Trim(vectors, lim.indexMax) == Trim(PutLast(IndexOf(old(Contents()), ns), key, vector), lim.indexMax)
        decreases Size(vectors)
      {
        vectors := PopFirst(vectors);
      }
      index := index[ns := vectors];
    }

    method IndexEntries(ns: Versions) returns (r: seq<(Key, Vector)>)
      requires Sound()
      ensures r == Pairs(IndexOf(Contents(), ns))
    {
      r := if ns in index then Pairs(index[ns]) else [];
    }

    method IndexRemove(ns: Versions, key: Key)
      requires Sound()
      modifies this
      ensures Sound() && Contents() == Unindexed(old(Contents()), ns, key)
    {
      if ns in index {
        WithoutValid(index[ns], key);
        index := index[ns := Without(index[ns], key)];
      }
    }

    method Clear()
      requires Sound()
      modifies this
      ensures Sound() && Contents() == NOTHING
    {
      entries, index := Empty(), map[];
    }
  }

  /** A stored payload is read back for as long as its time to live; one stored with
      none, or whose deadline would be zero, until it is evicted. */
  lemma StoredLives(lim: Limits, st: Store, key: Key, value: Payload, ttl: real, now: real, later: real)
    requires Valid(st.entries) && lim.maxEntries > 0
    ensures var read := Lru.Peek(Put(lim, st, key, value, ttl, now).entries, key, later);
            && (read.Some? <==> ttl <= 0.0 || now + ttl == 0.0 || later - now < ttl)
            && (read.Some? ==> read.value == value)
  {
    Lru.WrittenStays(st.entries, lim.maxEntries, key, Lru.Slot(value, Deadline(ttl, now)));
  }
}
