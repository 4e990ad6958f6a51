/** What the answer cache is for: a question worded differently is answered from
    it when its embedding is similar enough.

    The results are about whole lookups and stores. They name vectors, cosines and
    usable entries, and none of the steps a lookup takes.
 */
module Recall {
  import opened Wrappers
  import opened OrderedDict
  import opened Vectors
  import opened Sorting
  import opened CacheRecords
  import opened CacheBackend
  import opened KnowledgeBase
  import opened Gateway
  import QueryKeys
  import G = AgentGraph
  import Lru = LruStore

  /** The versions an operation starting at `now` runs under. */
  function VersionsAt(cfg: Settings, c: Cache, now: real): Versions {
    Versions(Current(c.store, c.lastKnown, now), cfg.model, cfg.prompts)
  }

  /** `k` could answer at every reading of the clock. */
  ghost predicate UsableThroughout(st: Store, k: Key, versions: Versions, clock: nat -> real) {
    forall j: nat :: Usable(st, k, versions, clock(j))
  }

  /** What reading the question's own key gives. */
  function ExactAnswer(cfg: Settings, c: Cache, query: string, clock: nat -> real): Option<CachedAnswer> {
    var versions := VersionsAt(cfg, c, clock(0));
    ReadEntry(Fetched(c.store, CounterKey, clock(0)), AnswerKey(versions, QueryKeys.Normalize(query)), versions,
              clock(1), clock(2)).1
  }

  /** A semantic hit is an entry of the store, under the versions of the lookup, found through its own vector. */
  ghost predicate FoundBySimilarity(cfg: Settings, sqrt: real -> real, st: Store, versions: Versions, x: Vector,
                                    hit: Hit)
  {
    var d := IndexOf(st, versions);
    && hit.kind == Semantic && hit.key in d.items && Similar(sqrt, x, d.items[hit.key], cfg.threshold)
    && hit.similarity == Cosine(sqrt, x, d.items[hit.key])
    && hit.key in st.entries.items && st.entries.items[hit.key].value == Answer(hit.entry)
    && hit.entry.versions == versions
  }

  // ---------------------------------------------------------- one scan

  lemma ReadingFourOn(st: Store, k: Key, versions: Versions, clock: nat -> real, j: nat)
    requires UsableThroughout(st, k, versions, clock)
    ensures Usable(st, k, versions, Later(clock, 4)(j))
  {
    assert Later(clock, 4)(j) == clock(4 + j);
  }

  lemma LaterForward(clock: nat -> real)
    requires Forward(clock)
    ensures Forward(Later(clock, 4))
  {
    forall i, j | 0 <= i <= j ensures Later(clock, 4)(i) <= Later(clock, 4)(j) {
      assert clock(4 + i) <= clock(4 + j);
    }
  }

  /** While a similar vector's entry is usable, a scan does not come back empty. */
  lemma ScanSucceeds(sqrt: real -> real, st: Store, ns: Versions, x: Vector, threshold: real, clock: nat -> real,
                     k: Key)
    requires Valid(st.entries) && Valid(IndexOf(st, ns)) && Forward(clock)
    requires k in IndexOf(st, ns).items && Similar(sqrt, x, IndexOf(st, ns).items[k], threshold)
    requires forall j: nat :: Usable(st, k, ns, clock(j))
    ensures Scan(st, ns, Ranked(sqrt, x, Pairs(IndexOf(st, ns)), threshold), clock, 0).2.Some?
  {
    var d, ranked := IndexOf(st, ns), Ranked(sqrt, x, Pairs(IndexOf(st, ns)), threshold);
    var (_, p, entry) := Scan(st, ns, ranked, clock, 0);
    RankedScore(sqrt, x, d, threshold);
    ScanEnds(st, ns, ranked, clock, 0);
    if entry == None {
      var j :| 0 <= j < |ranked| && ranked[j] == Scored(k, Cosine(sqrt, x, d.items[k]));
      ScanPasses(st, ns, ranked, clock, 0, clock(2 * p), j);
    }
  }

  /** A match in the index: what it is, and that nothing usable is more similar. */
  lemma MatchIsBest(cfg: Settings, sqrt: real -> real, c: Cache, versions: Versions, clock: nat -> real, x: Vector)
    requires Valid(c.store.entries) && Valid(IndexOf(c.store, versions)) && Forward(clock)
    ensures var hit := MatchOf(cfg, sqrt, c, versions, clock, x).1;
            hit.Some? ==>
              && FoundBySimilarity(cfg, sqrt, c.store, versions, x, hit.value)
              && forall k :: k in IndexOf(c.store, versions).items
                             && Similar(sqrt, x, IndexOf(c.store, versions).items[k], cfg.threshold)
                             && (forall j: nat :: Usable(c.store, k, versions, clock(j))) ==>
                               Cosine(sqrt, x, IndexOf(c.store, versions).items[k]) <= hit.value.similarity
  {
    var ranked := Ranked(sqrt, x, Pairs(IndexOf(c.store, versions)), cfg.threshold);
    var (_, p, entry) := Scan(c.store, versions, ranked, clock, 0);
    ScanEnds(c.store, versions, ranked, clock, 0);
    if entry.Some? {
      HitIsBest(sqrt, c.store, versions, x, cfg.threshold, clock, clock(2 * p));
      ScanFinds(c.store, versions, ranked, clock, 0);
    }
  }

  // ------------------------------------------------------- one lookup

  /** What a lookup has left of the store when it turns to the index. */
  function BeforeIndex(cfg: Settings, c: Cache, query: string, clock: nat -> real): Store {
    var versions := VersionsAt(cfg, c, clock(0));
    ReadEntry(Fetched(c.store, CounterKey, clock(0)), AnswerKey(versions, QueryKeys.Normalize(query)), versions,
              clock(1), clock(2)).0
  }

  lemma FetchKeeps(st: Store, key: Key, now: real, k: Key, versions: Versions, at: real)
    requires Valid(st.entries) && now <= at && Usable(st, k, versions, at)
    ensures Valid(Fetched(st, key, now).entries) && Usable(Fetched(st, key, now), k, versions, at)
  {
    FetchLoses(st, key, now);
    Lru.ReadEffect(st.entries, key, now);
  }

  lemma ReadKeeps(st: Store, key: Key, versions: Versions, atGet: real, atCheck: real, k: Key, at: real)
    requires Valid(st.entries) && atGet <= at && atCheck <= at && Usable(st, k, versions, at)
    ensures Usable(ReadEntry(st, key, versions, atGet, atCheck).0, k, versions, at)
  {
    ReadEntryEffect(st, key, versions, atGet, atCheck);
    ReadEntryFinds(st, key, versions, atGet, atCheck, at);
    FetchKeeps(st, key, atGet, k, versions, at);
  }

  /** Nothing usable is lost before the index is consulted, and nothing is added. */
  lemma BeforeIndexKeeps(cfg: Settings, c: Cache, query: string, clock: nat -> real)
    requires Valid(c.store.entries) && Forward(clock)
    ensures var st, versions := BeforeIndex(cfg, c, query, clock), VersionsAt(cfg, c, clock(0));
            && Valid(st.entries) && st.index == c.store.index
            && (forall k :: k in st.entries.items ==>
                  k in c.store.entries.items && st.entries.items[k] == c.store.entries.items[k])
            && (forall k, j: nat :: j >= 4 && Usable(c.store, k, versions, clock(j)) ==>
                  Usable(st, k, versions, clock(j)))
  {
    var versions := VersionsAt(cfg, c, clock(0));
    var key, fetched := AnswerKey(versions, QueryKeys.Normalize(query)), Fetched(c.store, CounterKey, clock(0));
    FetchLoses(c.store, CounterKey, clock(0));
    ReadEntryEffect(fetched, key, versions, clock(1), clock(2));
    ReadEntryIndex(fetched, key, versions, clock(1), clock(2));
    forall k, j: nat | j >= 4 && Usable(c.store, k, versions, clock(j))
      ensures Usable(BeforeIndex(cfg, c, query, clock), k, versions, clock(j))
    {
      assert clock(0) <= clock(j) && clock(1) <= clock(j) && clock(2) <= clock(j);
      FetchKeeps(c.store, CounterKey, clock(0), k, versions, clock(j));
      ReadKeeps(fetched, key, versions, clock(1), clock(2), k, clock(j));
    }
  }

  /** A lookup whose own key gives nothing asks the index. */
  lemma AsksTheIndex(cfg: Settings, sqrt: real -> real, c: Cache, query: string, clock: nat -> real, x: Vector)
    requires cfg.enabled && cfg.semantic && QueryKeys.Normalize(query) != ""
    ensures var hit := LookupOf(cfg, sqrt, c, query, clock, Some(x)).1;
            match ExactAnswer(cfg, c, query, clock)
            case Some(entry) => hit.Some? && hit.value.kind == Exact && hit.value.entry == entry
            case None =>
              var versions, st := VersionsAt(cfg, c, clock(0)), BeforeIndex(cfg, c, query, clock);
              if Pairs(IndexOf(st, versions)) == [] then hit == None
              else exists asked: Cache :: asked.store == st
                     && hit == MatchOf(cfg, sqrt, asked, versions, Later(clock, 4), x).1
  {
    if ExactAnswer(cfg, c, query, clock) == None {
      var asked := Cache(BeforeIndex(cfg, c, query, clock), Current(c.store, c.lastKnown, clock(0)), c.metrics);
      assert asked.store == BeforeIndex(cfg, c, query, clock);
    }
  }

  lemma LaterUsable(cfg: Settings, c: Cache, query: string, clock: nat -> real, k: Key)
    requires Valid(c.store.entries) && Forward(clock)
    requires UsableThroughout(c.store, k, VersionsAt(cfg, c, clock(0)), clock)
    ensures forall j: nat ::
              Usable(BeforeIndex(cfg, c, query, clock), k, VersionsAt(cfg, c, clock(0)), Later(clock, 4)(j))
  {
    var versions := VersionsAt(cfg, c, clock(0));
    BeforeIndexKeeps(cfg, c, query, clock);
    forall j: nat ensures Usable(BeforeIndex(cfg, c, query, clock), k, versions, Later(clock, 4)(j)) {
      assert Later(clock, 4)(j) == clock(4 + j) && Usable(c.store, k, versions, clock(4 + j));
    }
  }

  /** While a similar vector's answer is usable, matching finds one at least as similar. */
  lemma MatchSucceeds(cfg: Settings, sqrt: real -> real, c: Cache, versions: Versions, clock: nat -> real, x: Vector,
                      k: Key)
    requires Valid(c.store.entries) && Valid(IndexOf(c.store, versions)) && Forward(clock)
    requires var d := IndexOf(c.store, versions); k in d.items && Similar(sqrt, x, d.items[k], cfg.threshold)
    requires UsableThroughout(c.store, k, versions, clock)
    ensures var hit := MatchOf(cfg, sqrt, c, versions, clock, x).1;
            && hit.Some? && FoundBySimilarity(cfg, sqrt, c.store, versions, x, hit.value)
            && hit.value.similarity >= Cosine(sqrt, x, IndexOf(c.store, versions).items[k])
  {
    ScanSucceeds(sqrt, c.store, versions, x, cfg.threshold, clock, k);
    MatchIsBest(cfg, sqrt, c, versions, clock, x);
  }

  /** What is found before the index is consulted was in the store from the start. */
  lemma FoundFromTheStart(cfg: Settings, sqrt: real -> real, c: Cache, query: string, clock: nat -> real, x: Vector,
                          hit: Hit)
    requires Valid(c.store.entries) && Forward(clock)
    requires FoundBySimilarity(cfg, sqrt, BeforeIndex(cfg, c, query, clock), VersionsAt(cfg, c, clock(0)), x, hit)
    ensures FoundBySimilarity(cfg, sqrt, c.store, VersionsAt(cfg, c, clock(0)), x, hit)
  {
    BeforeIndexKeeps(cfg, c, query, clock);
  }

  /** A question whose own key gives nothing is a semantic hit whenever some indexed
      vector is similar enough and its answer usable throughout; the hit is then at
      least as similar as every such vector. */
  lemma SimilarIsFound(cfg: Settings, sqrt: real -> real, c: Cache, query: string, clock: nat -> real, x: Vector,
                       k: Key)
    requires cfg.enabled && cfg.semantic && QueryKeys.Normalize(query) != "" && Forward(clock)
    requires Valid(c.store.entries) && Valid(IndexOf(c.store, VersionsAt(cfg, c, clock(0))))
    requires ExactAnswer(cfg, c, query, clock) == None
    requires var d := IndexOf(c.store, VersionsAt(cfg, c, clock(0)));
             k in d.items && Similar(sqrt, x, d.items[k], cfg.threshold)
    requires UsableThroughout(c.store, k, VersionsAt(cfg, c, clock(0)), clock)
    ensures var versions, hit := VersionsAt(cfg, c, clock(0)), LookupOf(cfg, sqrt, c, query, clock, Some(x)).1;
            && hit.Some? && FoundBySimilarity(cfg, sqrt, c.store, versions, x, hit.value)
            && hit.value.similarity >= Cosine(sqrt, x, IndexOf(c.store, versions).items[k])
  {
    var versions, st := VersionsAt(cfg, c, clock(0)), BeforeIndex(cfg, c, query, clock);
    AsksTheIndex(cfg, sqrt, c, query, clock, x);
    BeforeIndexKeeps(cfg, c, query, clock);
    LaterUsable(cfg, c, query, clock, k);
    LaterForward(clock);
    IndexedIsPaired(IndexOf(st, versions), k);
    var asked: Cache :|
      asked.store == st && LookupOf(cfg, sqrt, c, query, clock, Some(x)).1
                           == MatchOf(cfg, sqrt, asked, versions, Later(clock, 4), x).1;
    MatchSucceeds(cfg, sqrt, asked, versions, Later(clock, 4), x, k);
    FoundFromTheStart(cfg, sqrt, c, query, clock, x, MatchOf(cfg, sqrt, asked, versions, Later(clock, 4), x).1.value);
  }

  lemma IndexedIsPaired(d: Index, k: Key)
    requires Valid(d) && k in d.items
    ensures Pairs(d) != []
  {
    assert k in d.order;
  }

  /** And a semantic hit is always one of those: an entry of the store, similar
      enough, no less than any vector whose answer is usable throughout. */
  lemma SemanticHitIsBest(cfg: Settings, sqrt: real -> real, c: Cache, query: string, clock: nat -> real, x: Vector)
    requires Valid(c.store.entries) && Valid(IndexOf(c.store, VersionsAt(cfg, c, clock(0)))) && Forward(clock)
    requires var hit := LookupOf(cfg, sqrt, c, query, clock, Some(x)).1; hit.Some? && hit.value.kind == Semantic
    ensures var versions, hit := VersionsAt(cfg, c, clock(0)), LookupOf(cfg, sqrt, c, query, clock, Some(x)).1.value;
            var d := IndexOf(c.store, versions);
            && FoundBySimilarity(cfg, sqrt, c.store, versions, x, hit)
            && forall k :: k in d.items && Similar(sqrt, x, d.items[k], cfg.threshold)
                           && UsableThroughout(c.store, k, versions, clock) ==>
                             Cosine(sqrt, x, d.items[k]) <= hit.similarity
  {
    var versions, st := VersionsAt(cfg, c, clock(0)), BeforeIndex(cfg, c, query, clock);
    var d, hit := IndexOf(c.store, versions), LookupOf(cfg, sqrt, c, query, clock, Some(x)).1;
    AsksTheIndex(cfg, sqrt, c, query, clock, x);
    BeforeIndexKeeps(cfg, c, query, clock);
    LaterForward(clock);
    var asked: Cache :| asked.store == st && hit == MatchOf(cfg, sqrt, asked, versions, Later(clock, 4), x).1;
    MatchIsBest(cfg, sqrt, asked, versions, Later(clock, 4), x);
    forall k | k in d.items && Similar(sqrt, x, d.items[k], cfg.threshold)
               && UsableThroughout(c.store, k, versions, clock)
      ensures Cosine(sqrt, x, d.items[k]) <= hit.value.similarity
    {
      LaterUsable(cfg, c, query, clock, k);
    }
  }

  // ------------------------------------------------- stored, then asked about

  /** The vector of an entry just kept is in the index of its versions. */
  lemma VectorIsThere(lim: Limits, st: Store, entry: CachedAnswer, ttl: real, now: real)
    requires Valid(IndexOf(st, entry.versions)) && lim.indexMax > 0 && entry.embedding != []
    ensures var d := IndexOf(Kept(lim, st, entry, ttl, now), entry.versions);
            var key := AnswerKey(entry.versions, entry.normalized);
            Valid(d) && key in d.items && d.items[key] == entry.embedding
  {
    var key := AnswerKey(entry.versions, entry.normalized);
    PutLastValid(IndexOf(st, entry.versions), key, entry.embedding);
    TrimValid(PutLast(IndexOf(st, entry.versions), key, entry.embedding), lim.indexMax);
    NewestStays(IndexOf(st, entry.versions), lim.indexMax, key, entry.embedding);
  }

  /** An entry just kept is usable as long as it lives. */
  lemma KeptIsUsable(lim: Limits, st: Store, entry: CachedAnswer, ttl: real, now: real, at: real)
    requires Valid(st.entries) && lim.maxEntries > 0 && entry.expiresAt <= now + ttl && entry.IsLive(at)
    ensures var key := AnswerKey(entry.versions, entry.normalized);
            Usable(Kept(lim, st, entry, ttl, now), key, entry.versions, at)
  {
    KeptIsThere(lim, st, entry, ttl, now);
  }

  /** The store after a `store` that kept an answer, and what it kept. */
  lemma StoreKeeps(cfg: Settings, lim: Limits, c: Cache, query: string, answer: string, metadata: G.Metadata,
                   clock: nat -> real, v: Vector)
    returns (entry: CachedAnswer)
    requires cfg.semantic && StoreOf(cfg, lim, c, query, answer, metadata, clock, Some(v)).1
    requires Valid(c.store.entries) && lim.maxEntries > 0
    ensures entry == EntryOf(query, QueryKeys.Normalize(query), answer, metadata, VersionsAt(cfg, c, clock(0)), v,
                             clock(1), cfg.ttl)
    ensures var stored := StoreOf(cfg, lim, c, query, answer, metadata, clock, Some(v)).0;
            && stored.store == Kept(lim, Fetched(c.store, CounterKey, clock(0)), entry, cfg.ttl, clock(2))
            && forall now :: VersionsAt(cfg, stored, now) == VersionsAt(cfg, c, clock(0))
  {
    entry := EntryOf(query, QueryKeys.Normalize(query), answer, metadata, VersionsAt(cfg, c, clock(0)), v, clock(1),
                     cfg.ttl);
    var stored := StoreOf(cfg, lim, c, query, answer, metadata, clock, Some(v)).0;
    FetchLoses(c.store, CounterKey, clock(0));
    KeptIsThere(lim, Fetched(c.store, CounterKey, clock(0)), entry, cfg.ttl, clock(2));
    forall now ensures VersionsAt(cfg, stored, now) == VersionsAt(cfg, c, clock(0)) {
      VersionStays(c.store, c.lastKnown, clock(0), stored.store, now);
    }
  }

  /** The second round trip: what a store with a vector keeps, a question in other
      words with a similar enough embedding recalls while it lives. The answer it
      gets is that one, unless its own key or a vector at least as similar has another. */
  lemma SimilarIsRecalled(cfg: Settings, lim: Limits, sqrt: real -> real, c: Cache, query: string, answer: string,
                          metadata: G.Metadata, clock: nat -> real, v: Vector,
                          again: string, later: nat -> real, x: Vector)
    requires cfg.semantic && v != [] && StoreOf(cfg, lim, c, query, answer, metadata, clock, Some(v)).1
    requires Valid(c.store.entries) && Valid(IndexOf(c.store, VersionsAt(cfg, c, clock(0))))
    requires lim.maxEntries > 0 && lim.indexMax > 0 && Forward(clock) && Forward(later)
    requires QueryKeys.Normalize(again) != "" && Similar(sqrt, x, v, cfg.threshold)
    requires forall j: nat :: later(j) < clock(1) + cfg.ttl
    ensures var stored := StoreOf(cfg, lim, c, query, answer, metadata, clock, Some(v)).0;
            var hit, versions := LookupOf(cfg, sqrt, stored, again, later, Some(x)).1, VersionsAt(cfg, c, clock(0));
            var d, key := IndexOf(stored.store, versions), AnswerKey(versions, QueryKeys.Normalize(query));
            && hit.Some?
            && (ExactAnswer(cfg, stored, again, later) == None ==>
                  && hit.value.kind == Semantic && hit.value.similarity >= Cosine(sqrt, x, v)
                  && ((forall j :: j in d.items && j != key && Similar(sqrt, x, d.items[j], cfg.threshold) ==>
                         Cosine(sqrt, x, d.items[j]) < Cosine(sqrt, x, v)) ==>
                        hit.value.key == key && hit.value.entry.answer == answer))
  {
    var entry := StoreKeeps(cfg, lim, c, query, answer, metadata, clock, v);
    var stored := StoreOf(cfg, lim, c, query, answer, metadata, clock, Some(v)).0;
    var key, fetched := AnswerKey(entry.versions, entry.normalized), Fetched(c.store, CounterKey, clock(0));
    FetchLoses(c.store, CounterKey, clock(0));
    KeptIsThere(lim, fetched, entry, cfg.ttl, clock(2));
    VectorIsThere(lim, fetched, entry, cfg.ttl, clock(2));
    assert clock(1) <= clock(2);
    forall j: nat ensures Usable(stored.store, key, entry.versions, later(j)) {
      KeptIsUsable(lim, fetched, entry, cfg.ttl, clock(2), later(j));
    }
    AsksTheIndex(cfg, sqrt, stored, again, later, x);
    if ExactAnswer(cfg, stored, again, later) == None {
      SimilarIsFound(cfg, sqrt, stored, again, later, x, key);
    }
  }
}
