/** The version of the indexed corpus, kept in the same evictable store as the answers. */
module KnowledgeBase {
  import opened Wrappers
  import opened OrderedDict
  import opened CacheRecords
  import opened CacheBackend
  import Lru = LruStore

  /** What `current` returns: the stored counter, or the one last seen. */
  function Current(st: Store, lastKnown: Token, now: real): Token {
    match Lru.Peek(st.entries, CounterKey, now)
    case Some(payload) => TokenOf(payload)
    case None => lastKnown
  }

  function Next(token: Token): Token {
    Number(AsInt(token) + 1)
  }

  class KnowledgeBaseVersion {
    const backend: InMemoryCacheBackend
    var lastKnown: Token

    constructor (backend: InMemoryCacheBackend)
      ensures this.backend == backend && lastKnown == Number(0)
    {
      this.backend := backend;
      lastKnown := Number(0);
    }

    method ReadCurrent(now: real) returns (token: Token)
      requires backend.Sound()
      modifies this, backend
      ensures backend.Sound() && backend.Contents() == Fetched(old(backend.Contents()), CounterKey, now)
      ensures token == lastKnown == Current(old(backend.Contents()), old(lastKnown), now)
    {
      var stored := backend.Get(CounterKey, now);
      if stored == None {
        return lastKnown;
      }
      lastKnown := TokenOf(stored.value);
      return lastKnown;
    }

    /** The read-modify-write runs under a lock of its own, so only one is ever under way. */
    method Bump(atGet: real, atSet: real) returns (token: Token)
      requires backend.Sound()
      modifies this, backend
      ensures backend.Sound()
      ensures token == lastKnown == Next(Current(old(backend.Contents()), old(lastKnown), atGet))
      ensures var fetched := Fetched(old(backend.Contents()), CounterKey, atGet);
              backend.Contents() == Put(backend.lim, fetched, CounterKey, Counter(token), 0.0, atSet)
    {
      var current := ReadCurrent(atGet);
      token := Next(current);
      backend.Set(CounterKey, Counter(token), 0.0, atSet);
      lastKnown := token;
    }
  }

  /** The stored counter, when there is one, is the one last seen, and it never expires. */
  ghost predicate Counting(st: Store, lastKnown: Token) {
    CounterKey in st.entries.items ==> st.entries.items[CounterKey] == Lru.Slot(Counter(lastKnown), None)
  }

  /** No entry of `after` is new or changed. */
  ghost predicate OnlyLost(before: Store, after: Store) {
    forall k :: k in after.entries.items ==>
      k in before.entries.items && after.entries.items[k] == before.entries.items[k]
  }

  /** Eviction, expiry, deletion and `clear` may lose the counter but never turn it back. */
  lemma NeverTurnsBack(before: Store, after: Store, lastKnown: Token, now: real)
    requires Counting(before, lastKnown) && OnlyLost(before, after)
    ensures Counting(after, lastKnown) && Current(after, lastKnown, now) == lastKnown
  {
  }

  lemma PutCounter(lim: Limits, st: Store, token: Token, now: real)
    requires Valid(st.entries)
    ensures Counting(Put(lim, st, CounterKey, Counter(token), 0.0, now), token)
  {
    Lru.WriteEffect(st.entries, lim.maxEntries, CounterKey, Lru.Slot(Counter(token), None));
  }

  lemma FetchLoses(st: Store, key: Key, now: real)
    requires Valid(st.entries)
    ensures Valid(Fetched(st, key, now).entries) && OnlyLost(st, Fetched(st, key, now))
  {
    Lru.ReadEffect(st.entries, key, now);
  }

  /** However much of the store is lost between, the next `current` reads the
      version this bump made, and that is one more than the version before it. */
  lemma BumpAdvances(lim: Limits, st: Store, lastKnown: Token, atGet: real, atSet: real, later: Store, now: real)
    requires Valid(st.entries) && Counting(st, lastKnown)
    requires var bumped := Next(Current(st, lastKnown, atGet));
             OnlyLost(Put(lim, Fetched(st, CounterKey, atGet), CounterKey, Counter(bumped), 0.0, atSet), later)
    ensures var bumped := Next(Current(st, lastKnown, atGet));
            && Current(later, bumped, now) == bumped
            && bumped == Number(match lastKnown case Number(n) => n + 1 case Foreign(_) => 1)
  {
    NeverTurnsBack(st, st, lastKnown, atGet);
    var bumped, fetched := Next(lastKnown), Fetched(st, CounterKey, atGet);
    FetchLoses(st, CounterKey, atGet);
    PutCounter(lim, fetched, bumped, atSet);
    NeverTurnsBack(Put(lim, fetched, CounterKey, Counter(bumped), 0.0, atSet), later, bumped, now);
  }
}
