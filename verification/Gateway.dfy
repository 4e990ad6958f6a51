/** The cache gateway: exact lookup, then semantic lookup, over one store. */
module Gateway {
  import opened Wrappers
  import opened OrderedDict
  import opened Vectors
  import opened Sorting
  import opened CacheRecords
  import opened CacheBackend
  import opened KnowledgeBase
  import QueryKeys
  import Scanning
  import G = AgentGraph
  import Lru = LruStore

  datatype Settings = Settings(
    enabled: bool,
    semantic: bool,
    threshold: real,
    ttl: real,
    minConfidence: real,
    model: string,
    prompts: string)

  // ------------------------------------------------------------ one entry

  /** What `_read` makes of a payload: an entry only if it parses, is live, and matches. */
  function Accepted(payload: Payload, versions: Versions, now: real): Option<CachedAnswer> {
    match Parse(payload)
    case None => None
    case Some(entry) => if entry.IsLive(now) && entry.Matches(versions) then Some(entry) else None
  }

  /** `_read`: whatever is there but not acceptable is deleted on the way past. */
  function ReadEntry(st: Store, key: Key, versions: Versions, atGet: real, atCheck: real): (Store, Option<CachedAnswer>)
  {
    var got := Fetched(st, key, atGet);
    match Lru.Peek(st.entries, key, atGet)
    case None => (got, None)
    case Some(payload) =>
      match Accepted(payload, versions, atCheck)
      case Some(entry) => (got, Some(entry))
      case None => (Deleted(got, key), None)
  }

  /** A lookup at `now` under `versions` could be answered from `key`. */
  predicate Usable(st: Store, key: Key, versions: Versions, now: real) {
    match Lru.Peek(st.entries, key, now)
    case None => false
    case Some(payload) => Accepted(payload, versions, now).Some?
  }

  lemma FetchedAndDeleted(st: Store, key: Key, now: real)
    requires Valid(st.entries)
    ensures Lru.Peek(st.entries, key, now).Some? ==> Lost(st.entries, Fetched(st, key, now).entries, {})
    ensures Lru.Peek(st.entries, key, now) == None ==> Lost(st.entries, Fetched(st, key, now).entries, {key})
    ensures Lost(st.entries, Deleted(Fetched(st, key, now), key).entries, {key})
  {
    Lru.ReadLoses(st.entries, key, now);
  }

  /** `_read` loses at most the entry it reads, and exactly when it returns nothing. */
  lemma ReadEntryEffect(st: Store, key: Key, versions: Versions, atGet: real, atCheck: real)
    requires Valid(st.entries)
    ensures var (after, entry) := ReadEntry(st, key, versions, atGet, atCheck);
            && (entry.Some? ==> Lost(st.entries, after.entries, {}))
            && (entry == None ==> Lost(st.entries, after.entries, {key}))
  {
    FetchedAndDeleted(st, key, atGet);
  }

  /** It finds what is usable, now or later, and what it returns is. */
  lemma ReadEntryFinds(st: Store, key: Key, versions: Versions, atGet: real, atCheck: real, now: real)
    ensures var entry := ReadEntry(st, key, versions, atGet, atCheck).1;
            && (entry.Some? ==> key in st.entries.items && st.entries.items[key].value == Answer(entry.value)
                                && entry.value.IsLive(atCheck) && entry.value.Matches(versions))
            && (entry == None && atGet <= now && atCheck <= now ==> !Usable(st, key, versions, now))
  {
  }

  // ------------------------------------------------------- semantic lookup

  /** Every indexed vector of the query's width at or above the threshold, scored. */
  function Candidates(sqrt: real -> real, embedding: Vector, indexed: seq<(Key, Vector)>,
                      threshold: real): seq<Scored<Key>>
  {
    if indexed == [] then []
    else
      var before, (key, vector) :=
        Candidates(sqrt, embedding, indexed[..|indexed| - 1], threshold), indexed[|indexed| - 1];
      if |vector| == |embedding| && Cosine(sqrt, embedding, vector) >= threshold
      then before + [Scored(key, Cosine(sqrt, embedding, vector))] else before
  }

  function Ranked(sqrt: real -> real, embedding: Vector, indexed: seq<(Key, Vector)>, threshold: real): seq<Scored<Key>>
  {
    SortedByScore(Candidates(sqrt, embedding, indexed, threshold))
  }

  /** Try one candidate: its entry, or what removing it from both halves leaves. */
  function Attempt(st: Store, ns: Versions, key: Key, atGet: real, atCheck: real): (Store, Option<CachedAnswer>) {
    var (read, entry) := ReadEntry(st, key, ns, atGet, atCheck);
    (if entry.Some? then read else Unindexed(read, ns, key), entry)
  }

  /** Candidate `i` is read at `clock(2 * i)` and checked at `clock(2 * i + 1)`. */
  function Attempts(ns: Versions, clock: nat -> real): (Store, Key, nat) -> (Store, Option<CachedAnswer>) {
    (st: Store, key: Key, i: nat) => Attempt(st, ns, key, clock(2 * i), clock(2 * i + 1))
  }

  /** Try the candidates from position `i` on, best first: what that leaves, and
      position and entry of the first usable one, or their number and nothing. */
  function Scan(st: Store, ns: Versions, ranked: seq<Scored<Key>>, clock: nat -> real,
                i: nat): (Store, nat, Option<CachedAnswer>)
    requires i <= |ranked|
  {
    Scanning.Scan(Attempts(ns, clock), st, ranked, i)
  }

  lemma ScanEnds(st: Store, ns: Versions, ranked: seq<Scored<Key>>, clock: nat -> real, i: nat)
    requires i <= |ranked|
    ensures var (_, p, entry) := Scan(st, ns, ranked, clock, i); i <= p <= |ranked| && (entry.Some? <==> p < |ranked|)
  {
    Scanning.ScanEnds(Attempts(ns, clock), st, ranked, i);
  }

  lemma ScanOne(st: Store, ns: Versions, ranked: seq<Scored<Key>>, clock: nat -> real, i: nat)
    requires i < |ranked|
    ensures var (next, entry) := Attempt(st, ns, ranked[i].item, clock(2 * i), clock(2 * i + 1));
            Scan(st, ns, ranked, clock, i)
              == if entry.Some? then (next, i, entry) else Scan(next, ns, ranked, clock, i + 1)
  {
  }

  ghost predicate Forward(clock: nat -> real) {
    forall i, j :: 0 <= i <= j ==> clock(i) <= clock(j)
  }

  lemma UnindexedEffect(st: Store, ns: Versions, key: Key)
    requires Valid(IndexOf(st, ns))
    ensures Lost(IndexOf(st, ns), IndexOf(Unindexed(st, ns, key), ns), {key})
  {
    LostWithout(IndexOf(st, ns), key);
  }

  /** An attempt in vain removes its candidate from both halves; one that succeeds removes nothing. */
  lemma AttemptLosesEntry(st: Store, ns: Versions, key: Key, atGet: real, atCheck: real)
    requires Valid(st.entries)
    ensures var (next, entry) := Attempt(st, ns, key, atGet, atCheck);
            Lost(st.entries, next.entries, if entry.Some? then {} else {key})
  {
    ReadEntryEffect(st, key, ns, atGet, atCheck);
  }

  lemma AttemptLosesVector(st: Store, ns: Versions, key: Key, atGet: real, atCheck: real)
    requires Valid(IndexOf(st, ns))
    ensures var (next, entry) := Attempt(st, ns, key, atGet, atCheck);
            Lost(IndexOf(st, ns), IndexOf(next, ns), if entry.Some? then {} else {key})
  {
    ReadEntryIndex(st, key, ns, atGet, atCheck);
    UnindexedEffect(ReadEntry(st, key, ns, atGet, atCheck).0, ns, key);
  }

  lemma ReadEntryIndex(st: Store, key: Key, versions: Versions, atGet: real, atCheck: real)
    ensures ReadEntry(st, key, versions, atGet, atCheck).0.index == st.index
  {
  }

  lemma AttemptKeepsOthers(st: Store, ns: Versions, key: Key, atGet: real, atCheck: real, v: Versions)
    requires v != ns
    ensures IndexOf(Attempt(st, ns, key, atGet, atCheck).0, v) == IndexOf(st, v)
  {
    ReadEntryIndex(st, key, ns, atGet, atCheck);
  }

  ghost function EntriesLost(): (Store, Store, set<Key>) -> bool {
    (a: Store, b: Store, gone: set<Key>) => Valid(a.entries) ==> Lost(a.entries, b.entries, gone)
  }

  ghost function VectorsLost(ns: Versions): (Store, Store, set<Key>) -> bool {
    (a: Store, b: Store, gone: set<Key>) => Valid(IndexOf(a, ns)) ==> Lost(IndexOf(a, ns), IndexOf(b, ns), gone)
  }

  ghost function Untouched(v: Versions): (Store, Store, set<Key>) -> bool {
    (a: Store, b: Store, gone: set<Key>) => IndexOf(b, v) == IndexOf(a, v)
  }

  lemma AttemptsLoseEntries(ns: Versions, clock: nat -> real)
    ensures Scanning.Changes(Attempts(ns, clock), EntriesLost())
  {
    forall a: Store, b: Store, c: Store, g, h | EntriesLost()(a, b, g) && EntriesLost()(b, c, h)
      ensures EntriesLost()(a, c, g + h)
    {
      if Valid(a.entries) {
        LostThenLost(a.entries, b.entries, c.entries, g, h);
      }
    }
    forall a: Store, k: Key, j: nat
      ensures EntriesLost()(a, Attempts(ns, clock)(a, k, j).0, if Attempts(ns, clock)(a, k, j).1.Some? then {} else {k})
    {
      if Valid(a.entries) {
        AttemptLosesEntry(a, ns, k, clock(2 * j), clock(2 * j + 1));
      }
    }
  }

  lemma AttemptsLoseVectors(ns: Versions, clock: nat -> real)
    ensures Scanning.Changes(Attempts(ns, clock), VectorsLost(ns))
  {
    forall a: Store, b: Store, c: Store, g, h | VectorsLost(ns)(a, b, g) && VectorsLost(ns)(b, c, h)
      ensures VectorsLost(ns)(a, c, g + h)
    {
      if Valid(IndexOf(a, ns)) {
        LostThenLost(IndexOf(a, ns), IndexOf(b, ns), IndexOf(c, ns), g, h);
      }
    }
    forall a: Store, k: Key, j: nat
      ensures VectorsLost(ns)(a, Attempts(ns, clock)(a, k, j).0,
                              if Attempts(ns, clock)(a, k, j).1.Some? then {} else {k})
    {
      if Valid(IndexOf(a, ns)) {
        AttemptLosesVector(a, ns, k, clock(2 * j), clock(2 * j + 1));
      }
    }
  }

  lemma AttemptsTouchNoOther(ns: Versions, clock: nat -> real, v: Versions)
    requires v != ns
    ensures Scanning.Changes(Attempts(ns, clock), Untouched(v))
  {
    forall a: Store, k: Key, j: nat
      ensures Untouched(v)(a, Attempts(ns, clock)(a, k, j).0, if Attempts(ns, clock)(a, k, j).1.Some? then {} else {k})
    {
      AttemptKeepsOthers(a, ns, k, clock(2 * j), clock(2 * j + 1), v);
    }
  }

  /** Scanning removes what it tried in vain, from both halves, and nothing else. */
  lemma ScanEffect(st: Store, ns: Versions, ranked: seq<Scored<Key>>, clock: nat -> real, i: nat)
    requires i <= |ranked| && Valid(st.entries) && Valid(IndexOf(st, ns))
    ensures var (after, p, entry) := Scan(st, ns, ranked, clock, i);
            && i <= p <= |ranked| && (entry.Some? <==> p < |ranked|)
            && Lost(st.entries, after.entries, Scanning.Tried(ranked, i, p))
            && Lost(IndexOf(st, ns), IndexOf(after, ns), Scanning.Tried(ranked, i, p))
            && (forall v :: v != ns ==> IndexOf(after, v) == IndexOf(st, v))
  {
    var attempts := Attempts(ns, clock);
    ScanEnds(st, ns, ranked, clock, i);
    AttemptsLoseEntries(ns, clock);
    Scanning.ScanChanges(attempts, EntriesLost(), st, ranked, i);
    AttemptsLoseVectors(ns, clock);
    Scanning.ScanChanges(attempts, VectorsLost(ns), st, ranked, i);
    forall v | v != ns ensures IndexOf(Scan(st, ns, ranked, clock, i).0, v) == IndexOf(st, v) {
      AttemptsTouchNoOther(ns, clock, v);
      Scanning.ScanChanges(attempts, Untouched(v), st, ranked, i);
    }
  }

  /** `key` is there, with a live and matching entry. */
  ghost predicate Holds(st: Store, ns: Versions, key: Key, entry: CachedAnswer, now: real) {
    && key in st.entries.items && st.entries.items[key].value == Answer(entry)
    && entry.IsLive(now) && entry.Matches(ns)
  }

  ghost function Held(ns: Versions, clock: nat -> real): (Store, Key, CachedAnswer, nat) -> bool {
    (st: Store, key: Key, entry: CachedAnswer, j: nat) =>
      Valid(st.entries) ==> Holds(st, ns, key, entry, clock(2 * j + 1))
  }

  lemma AttemptHolds(st: Store, ns: Versions, key: Key, atGet: real, atCheck: real, other: Key, entry: CachedAnswer,
                     now: real)
    requires Valid(st.entries)
    ensures var (next, found) := Attempt(st, ns, key, atGet, atCheck);
            && (found.Some? ==> Holds(st, ns, key, found.value, atCheck))
            && (found == None && Holds(next, ns, other, entry, now) ==> Holds(st, ns, other, entry, now))
            && (found == None ==> Valid(next.entries))
  {
    AttemptLosesEntry(st, ns, key, atGet, atCheck);
    ReadEntryFinds(st, key, ns, atGet, atCheck, 0.0);
  }

  lemma AttemptsFind(ns: Versions, clock: nat -> real)
    ensures Scanning.Finds(Attempts(ns, clock), Held(ns, clock))
  {
    var attempts, held := Attempts(ns, clock), Held(ns, clock);
    forall a: Store, k: Key, j: nat | attempts(a, k, j).1.Some? ensures held(a, k, attempts(a, k, j).1.value, j) {
      if Valid(a.entries) {
        AttemptHolds(a, ns, k, clock(2 * j), clock(2 * j + 1), k, attempts(a, k, j).1.value, 0.0);
      }
    }
    forall a: Store, k: Key, j: nat, l: Key, e: CachedAnswer, m: nat
      | attempts(a, k, j).1 == None && held(attempts(a, k, j).0, l, e, m)
      ensures held(a, l, e, m)
    {
      if Valid(a.entries) {
        AttemptHolds(a, ns, k, clock(2 * j), clock(2 * j + 1), l, e, clock(2 * m + 1));
      }
    }
  }

  /** The entry returned was there from the start, is live and matches. */
  lemma ScanFinds(st: Store, ns: Versions, ranked: seq<Scored<Key>>, clock: nat -> real, i: nat)
    requires i <= |ranked| && Valid(st.entries)
    ensures var (_, p, entry) := Scan(st, ns, ranked, clock, i);
            entry.Some? ==> p < |ranked| && Holds(st, ns, ranked[p].item, entry.value, clock(2 * p + 1))
  {
    AttemptsFind(ns, clock);
    Scanning.ScanFinds(Attempts(ns, clock), Held(ns, clock), st, ranked, i);
  }

  lemma UsableAlone(before: Store, after: Store, key: Key, gone: set<Key>, versions: Versions, now: real)
    requires Lost(before.entries, after.entries, gone) && key !in gone
    ensures Usable(before, key, versions, now) <==> Usable(after, key, versions, now)
  {
  }

  ghost function UsableAt(ns: Versions, now: real): (Store, Key) -> bool {
    (st: Store, key: Key) => Valid(st.entries) && Usable(st, key, ns, now)
  }

  lemma AttemptPasses(st: Store, ns: Versions, key: Key, atGet: real, atCheck: real, other: Key, now: real)
    requires Valid(st.entries) && Attempt(st, ns, key, atGet, atCheck).1 == None
    ensures atGet <= now && atCheck <= now ==> !Usable(st, key, ns, now)
    ensures Valid(Attempt(st, ns, key, atGet, atCheck).0.entries)
    ensures other != key ==>
              (Usable(st, other, ns, now) <==> Usable(Attempt(st, ns, key, atGet, atCheck).0, other, ns, now))
  {
    AttemptLosesEntry(st, ns, key, atGet, atCheck);
    ReadEntryFinds(st, key, ns, atGet, atCheck, now);
    if other != key {
      UsableAlone(st, Attempt(st, ns, key, atGet, atCheck).0, other, {key}, ns, now);
    }
  }

  lemma AttemptsPass(ns: Versions, clock: nat -> real, now: real, n: nat)
    requires Forward(clock) && now >= clock(2 * n)
    ensures Scanning.Passes(Attempts(ns, clock), UsableAt(ns, now), n)
  {
    var attempts, usable := Attempts(ns, clock), UsableAt(ns, now);
    forall a: Store, k: Key, j: nat | j < n && attempts(a, k, j).1 == None ensures !usable(a, k) {
      assert clock(2 * j) <= clock(2 * j + 1) <= clock(2 * n);
      if Valid(a.entries) {
        AttemptPasses(a, ns, k, clock(2 * j), clock(2 * j + 1), k, now);
      }
    }
    forall a: Store, k: Key, j: nat, l: Key | attempts(a, k, j).1 == None && l != k && usable(a, l)
      ensures usable(attempts(a, k, j).0, l)
    {
      AttemptPasses(a, ns, k, clock(2 * j), clock(2 * j + 1), l, now);
    }
  }

  /** What was tried in vain is not usable, then or later. */
  lemma ScanPasses(st: Store, ns: Versions, ranked: seq<Scored<Key>>, clock: nat -> real, i: nat, now: real, j: nat)
    requires i <= j < |ranked| && Valid(st.entries) && Forward(clock) && DistinctItems(ranked)
    requires j < Scan(st, ns, ranked, clock, i).1 && now >= clock(2 * Scan(st, ns, ranked, clock, i).1)
    ensures !Usable(st, ranked[j].item, ns, now)
  {
    AttemptsPass(ns, clock, now, Scan(st, ns, ranked, clock, i).1);
    Scanning.ScanPasses(Attempts(ns, clock), UsableAt(ns, now), st, ranked, i, j);
    assert !UsableAt(ns, now)(st, ranked[j].item);
  }

  // --------------------------------------------------- what ranking selects

  /** `vector` has the query's width and is similar enough to it. */
  ghost predicate Similar(sqrt: real -> real, embedding: Vector, vector: Vector, threshold: real) {
    |vector| == |embedding| && Cosine(sqrt, embedding, vector) >= threshold
  }

  ghost predicate Scores(sqrt: real -> real, embedding: Vector, threshold: real, key: Key, vector: Vector,
                         c: Scored<Key>)
  {
    Similar(sqrt, embedding, vector, threshold) && c == Scored(key, Cosine(sqrt, embedding, vector))
  }

  lemma {:induction false} CandidatesScore(sqrt: real -> real, embedding: Vector, indexed: seq<(Key, Vector)>,
                                           threshold: real)
    requires forall i, j :: 0 <= i < j < |indexed| ==> indexed[i].0 != indexed[j].0
    ensures var cs := Candidates(sqrt, embedding, indexed, threshold);
            && DistinctItems(cs)
            && (forall c :: c in cs ==>
                  exists i :: 0 <= i < |indexed| && Scores(sqrt, embedding, threshold, indexed[i].0, indexed[i].1, c))
            && (forall i :: 0 <= i < |indexed| && Similar(sqrt, embedding, indexed[i].1, threshold) ==>
                  Scored(indexed[i].0, Cosine(sqrt, embedding, indexed[i].1)) in cs)
  {
    if indexed != [] {
      var n := |indexed| - 1;
      var before := indexed[..n];
      CandidatesScore(sqrt, embedding, before, threshold);
      var cs, prior := Candidates(sqrt, embedding, indexed, threshold), Candidates(sqrt, embedding, before, threshold);
      assert forall i :: 0 <= i < n ==> before[i] == indexed[i];
      forall c | c in cs
        ensures exists i :: 0 <= i < |indexed| && Scores(sqrt, embedding, threshold, indexed[i].0, indexed[i].1, c)
      {
        if c in prior {
          var i :| 0 <= i < n && Scores(sqrt, embedding, threshold, before[i].0, before[i].1, c);
          assert Scores(sqrt, embedding, threshold, indexed[i].0, indexed[i].1, c);
        } else {
          assert Scores(sqrt, embedding, threshold, indexed[n].0, indexed[n].1, c);
        }
      }
      forall j | 0 <= j < |prior| ensures prior[j].item != indexed[n].0 {
        assert prior[j] in prior;
      }
    }
  }

  /** Every ranked candidate is one of the indexed vectors. */
  lemma RankedFrom(sqrt: real -> real, embedding: Vector, indexed: seq<(Key, Vector)>, threshold: real,
                   c: Scored<Key>) returns (i: nat)
    requires forall i, j :: 0 <= i < j < |indexed| ==> indexed[i].0 != indexed[j].0
    requires c in Ranked(sqrt, embedding, indexed, threshold)
    ensures i < |indexed| && Scores(sqrt, embedding, threshold, indexed[i].0, indexed[i].1, c)
  {
    CandidatesScore(sqrt, embedding, indexed, threshold);
    SortedDistinct(Candidates(sqrt, embedding, indexed, threshold));
    i :| 0 <= i < |indexed| && Scores(sqrt, embedding, threshold, indexed[i].0, indexed[i].1, c);
  }

  /** The candidates of an index are its sufficiently similar vectors. */
  lemma CandidatesOf(sqrt: real -> real, embedding: Vector, d: Index, threshold: real)
    requires Valid(d)
    ensures var cs := Candidates(sqrt, embedding, Pairs(d), threshold);
            && DistinctItems(cs)
            && (forall c :: c in cs ==>
                  c.item in d.items && Scores(sqrt, embedding, threshold, c.item, d.items[c.item], c))
            && (forall k :: k in d.items && Similar(sqrt, embedding, d.items[k], threshold) ==>
                  Scored(k, Cosine(sqrt, embedding, d.items[k])) in cs)
  {
    var indexed := Pairs(d);
    CandidatesScore(sqrt, embedding, indexed, threshold);
    forall k | k in d.items && Similar(sqrt, embedding, d.items[k], threshold)
      ensures Scored(k, Cosine(sqrt, embedding, d.items[k])) in Candidates(sqrt, embedding, indexed, threshold)
    {
      var i :| 0 <= i < |d.order| && d.order[i] == k;
      assert indexed[i] == (k, d.items[k]);
    }
  }

  /** The ranking lists each sufficiently similar vector of the index once, best first. */
  lemma RankedScore(sqrt: real -> real, embedding: Vector, d: Index, threshold: real)
    requires Valid(d)
    ensures var ranked := Ranked(sqrt, embedding, Pairs(d), threshold);
            && DistinctItems(ranked) && Descending(ranked)
            && (forall c :: c in ranked ==>
                  c.item in d.items && Scores(sqrt, embedding, threshold, c.item, d.items[c.item], c))
            && (forall k :: k in d.items && Similar(sqrt, embedding, d.items[k], threshold) ==>
                  Scored(k, Cosine(sqrt, embedding, d.items[k])) in ranked)
  {
    var cs, ranked := Candidates(sqrt, embedding, Pairs(d), threshold), Ranked(sqrt, embedding, Pairs(d), threshold);
    CandidatesOf(sqrt, embedding, d, threshold);
    SortedDistinct(cs);
    SortingIsStable(cs);
    forall c ensures c in ranked <==> c in cs {
      SortedMember(cs, c);
    }
  }

  /** What outranks position `p` was tried before it. */
  lemma TriedAbove(ranked: seq<Scored<Key>>, c: Scored<Key>, p: nat)
    requires Descending(ranked) && c in ranked && p <= |ranked| && (p < |ranked| ==> c.score > ranked[p].score)
    ensures c.item in Scanning.Tried(ranked, 0, p)
    ensures exists j :: 0 <= j < p && ranked[j].item == c.item
  {
    var j :| 0 <= j < |ranked| && ranked[j] == c;
    assert ranked[j].item == c.item;
  }

  /** A miss leaves no vector of the query's width at or above the threshold. */
  lemma MissLeavesNothing(sqrt: real -> real, st: Store, ns: Versions, embedding: Vector, threshold: real,
                          clock: nat -> real)
    requires Valid(st.entries) && Valid(IndexOf(st, ns))
    ensures var ranked := Ranked(sqrt, embedding, Pairs(IndexOf(st, ns)), threshold);
            var (after, _, entry) := Scan(st, ns, ranked, clock, 0);
            entry == None ==>
              forall k :: k in IndexOf(after, ns).items ==>
                !Similar(sqrt, embedding, IndexOf(after, ns).items[k], threshold)
  {
    var d, ranked := IndexOf(st, ns), Ranked(sqrt, embedding, Pairs(IndexOf(st, ns)), threshold);
    var (after, p, entry) := Scan(st, ns, ranked, clock, 0);
    RankedScore(sqrt, embedding, d, threshold);
    ScanEffect(st, ns, ranked, clock, 0);
    if entry == None {
      forall k | k in d.items && Similar(sqrt, embedding, d.items[k], threshold)
        ensures k in Scanning.Tried(ranked, 0, p)
      {
        TriedAbove(ranked, Scored(k, Cosine(sqrt, embedding, d.items[k])), p);
      }
    }
  }

  /** A hit carries its own similarity, at or above the threshold, and is at least
      as similar as every vector of the query's width whose answer is still
      usable: whatever ranks above it is unusable and gone from both halves. */
  lemma HitIsBest(sqrt: real -> real, st: Store, ns: Versions, embedding: Vector, threshold: real, clock: nat -> real,
                  now: real)
    requires Valid(st.entries) && Valid(IndexOf(st, ns)) && Forward(clock)
    ensures var d, ranked := IndexOf(st, ns), Ranked(sqrt, embedding, Pairs(IndexOf(st, ns)), threshold);
            var (after, p, entry) := Scan(st, ns, ranked, clock, 0);
            entry.Some? && now >= clock(2 * p) ==>
              && p < |ranked| && ranked[p].item in d.items
              && Scores(sqrt, embedding, threshold, ranked[p].item, d.items[ranked[p].item], ranked[p])
              && (forall k :: k in d.items && Similar(sqrt, embedding, d.items[k], threshold)
                              && Cosine(sqrt, embedding, d.items[k]) > ranked[p].score ==>
                    !Usable(st, k, ns, now) && k !in IndexOf(after, ns).items && k !in after.entries.items)
  {
    var d, ranked := IndexOf(st, ns), Ranked(sqrt, embedding, Pairs(IndexOf(st, ns)), threshold);
    var (after, p, entry) := Scan(st, ns, ranked, clock, 0);
    RankedScore(sqrt, embedding, d, threshold);
    ScanEffect(st, ns, ranked, clock, 0);
    if entry.Some? && now >= clock(2 * p) {
      forall j | 0 <= j < p ensures !Usable(st, ranked[j].item, ns, now) {
        ScanPasses(st, ns, ranked, clock, 0, now, j);
      }
      assert ranked[p] in ranked;
      forall k | k in d.items && Similar(sqrt, embedding, d.items[k], threshold)
        && Cosine(sqrt, embedding, d.items[k]) > ranked[p].score
        ensures !Usable(st, k, ns, now) && k in Scanning.Tried(ranked, 0, p)
      {
        TriedAbove(ranked, Scored(k, Cosine(sqrt, embedding, d.items[k])), p);
      }
    }
  }

  /** Self-cleaning is safe for a lookup alone: whatever it removes, from either half,
      could not have answered it. */
  lemma OnlyTheUnusableGoes(sqrt: real -> real, st: Store, ns: Versions, embedding: Vector, threshold: real,
                            clock: nat -> real, now: real)
    requires Valid(st.entries) && Valid(IndexOf(st, ns)) && Forward(clock)
    ensures var ranked := Ranked(sqrt, embedding, Pairs(IndexOf(st, ns)), threshold);
            var (after, p, _) := Scan(st, ns, ranked, clock, 0);
            && (now >= clock(2 * p) ==> forall k :: k in st.entries.items && k !in after.entries.items ==>
                  !Usable(st, k, ns, now))
            && (now >= clock(2 * p) ==> forall k :: k in IndexOf(st, ns).items && k !in IndexOf(after, ns).items ==>
                  !Usable(st, k, ns, now))
            && (forall k :: k in IndexOf(st, ns).items && k !in IndexOf(after, ns).items ==> k !in after.entries.items)
            && (forall v :: v != ns ==> IndexOf(after, v) == IndexOf(st, v))
  {
    var ranked := Ranked(sqrt, embedding, Pairs(IndexOf(st, ns)), threshold);
    RankedScore(sqrt, embedding, IndexOf(st, ns), threshold);
    ScanEffect(st, ns, ranked, clock, 0);
    var p := Scan(st, ns, ranked, clock, 0).1;
    if now >= clock(2 * p) {
      forall j | 0 <= j < p ensures !Usable(st, ranked[j].item, ns, now) {
        ScanPasses(st, ns, ranked, clock, 0, now, j);
      }
    }
  }

  // ------------------------------------------------------- whole operations

  datatype Metrics = Metrics(hits: nat, misses: nat, exactHits: nat, semanticHits: nat, written: nat, errors: nat)

  /** All the gateway's state: the store behind it, the version last seen, the counters. */
  datatype Cache = Cache(store: Store, lastKnown: Token, metrics: Metrics)

  function Missed(m: Metrics): Metrics {
    m.(misses := m.misses + 1)
  }

  function CountedHit(m: Metrics, kind: Kind): Metrics {
    match kind
    case Exact => m.(hits := m.hits + 1, exactHits := m.exactHits + 1)
    case Semantic => m.(hits := m.hits + 1, semanticHits := m.semanticHits + 1)
  }

  /** `VersionResolver.resolve` */
  function Resolved(cfg: Settings, c: Cache, now: real): (Cache, Versions) {
    var token := Current(c.store, c.lastKnown, now);
    (c.(store := Fetched(c.store, CounterKey, now), lastKnown := token), Versions(token, cfg.model, cfg.prompts))
  }

  /** A semantic hit as it is reported: the entry, where it was, how old, and how similar. */
  function SemanticHit(ranked: seq<Scored<Key>>, p: nat, entry: Option<CachedAnswer>, clock: nat -> real): Option<Hit>
    requires entry.Some? ==> p < |ranked|
  {
    if entry == None then None
    else Some(Hit(entry.value, Semantic, ranked[p].item, entry.value.AgeSeconds(clock(2 * p + 2)), ranked[p].score))
  }

  /** The best usable match in the index, counted as a hit or a miss. */
  function MatchOf(cfg: Settings, sqrt: real -> real, c: Cache, versions: Versions, clock: nat -> real,
                   embedding: Vector): (Cache, Option<Hit>)
  {
    var ranked := Ranked(sqrt, embedding, Pairs(IndexOf(c.store, versions)), cfg.threshold);
    var (after, p, entry) := Scan(c.store, versions, ranked, clock, 0);
    ScanEnds(c.store, versions, ranked, clock, 0);
    (c.(store := after, metrics := if entry.Some? then CountedHit(c.metrics, Semantic) else Missed(c.metrics)),
     SemanticHit(ranked, p, entry, clock))
  }

  /** `_semantic`; `reply` is what the embedding call gives, `None` when it raises. */
  function SemanticOf(cfg: Settings, sqrt: real -> real, c: Cache, versions: Versions, clock: nat -> real,
                      reply: Option<Vector>): (Cache, Option<Hit>)
  {
    if !cfg.semantic || Pairs(IndexOf(c.store, versions)) == [] then (c.(metrics := Missed(c.metrics)), None)
    else
      match reply
      case None => (c.(metrics := Missed(c.metrics.(errors := c.metrics.errors + 1))), None)
      case Some(embedding) => MatchOf(cfg, sqrt, c, versions, clock, embedding)
  }

  /** The readings after the first `n`. */
  function Later(clock: nat -> real, n: nat): nat -> real {
    (i: nat) => clock(n + i)
  }

  /** `lookup`: exact, then semantic, then nothing. */
  function LookupOf(cfg: Settings, sqrt: real -> real, c: Cache, query: string, clock: nat -> real,
                    reply: Option<Vector>): (Cache, Option<Hit>)
  {
    var normalized := QueryKeys.Normalize(query);
    if !cfg.enabled || normalized == "" then (c, None)
    else
      var (resolved, versions) := Resolved(cfg, c, clock(0));
      var key := AnswerKey(versions, normalized);
      var (read, entry) := ReadEntry(resolved.store, key, versions, clock(1), clock(2));
      if entry.Some? then
        (resolved.(store := read, metrics := CountedHit(c.metrics, Exact)),
         Some(Hit(entry.value, Exact, key, entry.value.AgeSeconds(clock(3)), 1.0)))
      else SemanticOf(cfg, sqrt, resolved.(store := read), versions, Later(clock, 4), reply)
  }

  /** The entry, and its vector if it has one, under the versions just resolved. */
  function Kept(lim: Limits, st: Store, entry: CachedAnswer, ttl: real, now: real): Store {
    var key := AnswerKey(entry.versions, entry.normalized);
    var put := Put(lim, st, key, Answer(entry), ttl, now);
    if entry.embedding != [] then Indexed(lim, put, entry.versions, key, entry.embedding) else put
  }

  /** What `store` does with an answer the gate has let through. */
  function AdmittedOf(cfg: Settings, lim: Limits, c: Cache, query: string, normalized: string, answer: string,
                      metadata: G.Metadata, clock: nat -> real, reply: Option<Vector>): (Cache, bool)
  {
    var (resolved, versions) := Resolved(cfg, c, clock(0));
    if cfg.semantic && reply == None then
      (resolved.(metrics := c.metrics.(errors := c.metrics.errors + 1)), false)
    else
      var embedding := if cfg.semantic then reply.value else [];
      var entry := EntryOf(query, normalized, answer, metadata, versions, embedding, clock(1), cfg.ttl);
      (resolved.(store := Kept(lim, resolved.store, entry, cfg.ttl, clock(2)),
                 metrics := c.metrics.(written := c.metrics.written + 1)), true)
  }

  /** `store`: only an answer the gate lets through is kept. */
  function StoreOf(cfg: Settings, lim: Limits, c: Cache, query: string, answer: string, metadata: G.Metadata,
                   clock: nat -> real, reply: Option<Vector>): (Cache, bool)
  {
    if !cfg.enabled || QueryKeys.Normalize(query) == "" then (c, false)
    else if G.Refuse(cfg.minConfidence, answer, metadata).Some? then (c, false)
    else AdmittedOf(cfg, lim, c, query, QueryKeys.Normalize(query), answer, metadata, clock, reply)
  }

  // ------------------------------------------------- stored, then looked up

  lemma ReadKeepsValid(st: Store, key: Key, versions: Versions, atGet: real, atCheck: real)
    requires Valid(st.entries)
    ensures Valid(ReadEntry(st, key, versions, atGet, atCheck).0.entries)
  {
    ReadEntryEffect(st, key, versions, atGet, atCheck);
  }

  lemma MatchKeepsValid(cfg: Settings, sqrt: real -> real, c: Cache, versions: Versions, clock: nat -> real,
                        embedding: Vector)
    requires Valid(c.store.entries)
    ensures Valid(MatchOf(cfg, sqrt, c, versions, clock, embedding).0.store.entries)
  {
    var ranked := Ranked(sqrt, embedding, Pairs(IndexOf(c.store, versions)), cfg.threshold);
    AttemptsLoseEntries(versions, clock);
    Scanning.ScanChanges(Attempts(versions, clock), EntriesLost(), c.store, ranked, 0);
  }

  lemma LookupKeepsValid(cfg: Settings, sqrt: real -> real, c: Cache, query: string, clock: nat -> real,
                         reply: Option<Vector>)
    requires Valid(c.store.entries)
    ensures Valid(LookupOf(cfg, sqrt, c, query, clock, reply).0.store.entries)
  {
    var (resolved, versions) := Resolved(cfg, c, clock(0));
    FetchLoses(c.store, CounterKey, clock(0));
    var key := AnswerKey(versions, QueryKeys.Normalize(query));
    ReadKeepsValid(resolved.store, key, versions, clock(1), clock(2));
    var read := ReadEntry(resolved.store, key, versions, clock(1), clock(2)).0;
    if reply.Some? {
      MatchKeepsValid(cfg, sqrt, resolved.(store := read), versions, Later(clock, 4), reply.value);
    }
  }

  /** An entry just kept is where a lookup reads, and nothing but its age can spoil it. */
  lemma KeptIsThere(lim: Limits, st: Store, entry: CachedAnswer, ttl: real, now: real)
    requires Valid(st.entries) && lim.maxEntries > 0
    ensures var key, kept := AnswerKey(entry.versions, entry.normalized), Kept(lim, st, entry, ttl, now);
            && Valid(kept.entries) && key in kept.entries.items
            && kept.entries.items[key] == Lru.Slot(Answer(entry), Deadline(ttl, now))
            && (CounterKey in kept.entries.items ==>
                  CounterKey in st.entries.items && kept.entries.items[CounterKey] == st.entries.items[CounterKey])
  {
    var slot := Lru.Slot(Answer(entry), Deadline(ttl, now));
    Lru.WrittenStays(st.entries, lim.maxEntries, AnswerKey(entry.versions, entry.normalized), slot);
    Lru.WriteEffect(st.entries, lim.maxEntries, AnswerKey(entry.versions, entry.normalized), slot);
  }

  /** The version resolved for a store is the one the next lookup resolves,
      whether or not the store pushed the counter out. */
  lemma VersionStays(st: Store, lastKnown: Token, atStore: real, later: Store, atLookup: real)
    requires Valid(st.entries)
    requires CounterKey in later.entries.items ==>
               var fetched := Fetched(st, CounterKey, atStore);
               CounterKey in fetched.entries.items
               && later.entries.items[CounterKey] == fetched.entries.items[CounterKey]
    ensures Current(later, Current(st, lastKnown, atStore), atLookup) == Current(st, lastKnown, atStore)
  {
    FetchLoses(st, CounterKey, atStore);
    WithoutValid(st.entries, CounterKey);
  }

  lemma ReadFindsThere(st: Store, entry: CachedAnswer, deadline: Option<real>, atGet: real, atCheck: real)
    requires var key := AnswerKey(entry.versions, entry.normalized);
             && key in st.entries.items && st.entries.items[key] == Lru.Slot(Answer(entry), deadline)
    requires entry.IsLive(atCheck) && deadline.Some? ==> atGet < deadline.value
    ensures var key := AnswerKey(entry.versions, entry.normalized);
            ReadEntry(st, key, entry.versions, atGet, atCheck).1 == if entry.IsLive(atCheck) then Some(entry) else None
  {
  }

  /** An exact hit is what reading the question's key gives, and nothing else is one. */
  lemma ExactIsRead(cfg: Settings, sqrt: real -> real, c: Cache, query: string, clock: nat -> real,
                    reply: Option<Vector>)
    requires cfg.enabled && QueryKeys.Normalize(query) != ""
    ensures var (resolved, versions) := Resolved(cfg, c, clock(0));
            var key := AnswerKey(versions, QueryKeys.Normalize(query));
            var entry := ReadEntry(resolved.store, key, versions, clock(1), clock(2)).1;
            var hit := LookupOf(cfg, sqrt, c, query, clock, reply).1;
            && (hit.Some? && hit.value.kind == Exact <==> entry.Some?)
            && (entry.Some? ==> hit == Some(Hit(entry.value, Exact, key, entry.value.AgeSeconds(clock(3)), 1.0)))
  {
  }

  /** Keeping `entry` under the versions resolved at `clock(0)` makes a read under the
      versions the next lookup resolves give it, exactly while it lives. */
  lemma KeptIsRead(cfg: Settings, lim: Limits, c: Cache, entry: CachedAnswer, now: real, clock: nat -> real,
                   later: nat -> real, metrics: Metrics)
    requires Valid(c.store.entries) && lim.maxEntries > 0 && Forward(later)
    requires entry.versions == Resolved(cfg, c, clock(0)).1 && entry.expiresAt <= now + cfg.ttl
    ensures var resolved := Resolved(cfg, c, clock(0)).0;
            var (found, versions) :=
              Resolved(cfg, Cache(Kept(lim, resolved.store, entry, cfg.ttl, now), resolved.lastKnown, metrics),
                       later(0));
            && versions == entry.versions
            && ReadEntry(found.store, AnswerKey(versions, entry.normalized), versions, later(1), later(2)).1
               == if entry.IsLive(later(2)) then Some(entry) else None
  {
    var resolved := Resolved(cfg, c, clock(0)).0;
    var kept := Kept(lim, resolved.store, entry, cfg.ttl, now);
    FetchLoses(c.store, CounterKey, clock(0));
    KeptIsThere(lim, resolved.store, entry, cfg.ttl, now);
    VersionStays(c.store, c.lastKnown, clock(0), kept, later(0));
    Lru.ReadEffect(kept.entries, CounterKey, later(0));
    assert later(1) <= later(2);
    ReadFindsThere(Fetched(kept, CounterKey, later(0)), entry, Deadline(cfg.ttl, now), later(1), later(2));
  }

  /** What `store` keeps, the next `lookup` of any text of the same normal form
      finds, and finds exactly, if and only if it is still live then: the round
      trip the cache is for. */
  lemma StoredIsFound(cfg: Settings, lim: Limits, sqrt: real -> real, c: Cache, query: string, answer: string,
                      metadata: G.Metadata, clock: nat -> real, reply: Option<Vector>,
                      again: string, later: nat -> real, laterReply: Option<Vector>)
    requires Valid(c.store.entries) && lim.maxEntries > 0
    requires Forward(clock) && Forward(later) && StoreOf(cfg, lim, c, query, answer, metadata, clock, reply).1
    requires QueryKeys.Normalize(again) == QueryKeys.Normalize(query)
    ensures var stored := StoreOf(cfg, lim, c, query, answer, metadata, clock, reply).0;
            var hit := LookupOf(cfg, sqrt, stored, again, later, laterReply).1;
            var versions := Resolved(cfg, c, clock(0)).1;
            && (hit.Some? && hit.value.kind == Exact <==> later(2) < clock(1) + cfg.ttl)
            && (hit.Some? && hit.value.kind == Exact ==>
                  && hit.value.similarity == 1.0
                  && hit.value.key == AnswerKey(versions, QueryKeys.Normalize(query))
                  && hit.value.entry == EntryOf(query, QueryKeys.Normalize(query), answer, metadata, versions,
                                                if cfg.semantic then reply.value else [], clock(1), cfg.ttl))
  {
    var versions := Resolved(cfg, c, clock(0)).1;
    var embedding := if cfg.semantic then reply.value else [];
    var entry := EntryOf(query, QueryKeys.Normalize(query), answer, metadata, versions, embedding, clock(1), cfg.ttl);
    var stored := StoreOf(cfg, lim, c, query, answer, metadata, clock, reply).0;
    assert clock(1) <= clock(2);
    KeptIsRead(cfg, lim, c, entry, clock(2), clock, later, stored.metrics);
    ExactIsRead(cfg, sqrt, stored, again, later, laterReply);
  }

  /** The age such a hit reports is the time since the store, or none if the clock went back. */
  lemma FoundAge(cfg: Settings, lim: Limits, sqrt: real -> real, c: Cache, query: string, answer: string,
                 metadata: G.Metadata, clock: nat -> real, reply: Option<Vector>,
                 again: string, later: nat -> real, laterReply: Option<Vector>)
    requires Valid(c.store.entries) && lim.maxEntries > 0
    requires Forward(clock) && Forward(later) && StoreOf(cfg, lim, c, query, answer, metadata, clock, reply).1
    requires QueryKeys.Normalize(again) == QueryKeys.Normalize(query) && later(2) < clock(1) + cfg.ttl
    ensures var stored := StoreOf(cfg, lim, c, query, answer, metadata, clock, reply).0;
            var hit := LookupOf(cfg, sqrt, stored, again, later, laterReply).1;
            hit.Some? && hit.value.age == if later(3) > clock(1) then later(3) - clock(1) else 0.0
  {
    var stored := StoreOf(cfg, lim, c, query, answer, metadata, clock, reply).0;
    StoredIsFound(cfg, lim, sqrt, c, query, answer, metadata, clock, reply, again, later, laterReply);
    ExactIsRead(cfg, sqrt, stored, again, later, laterReply);
  }

  /** `n` counts one more lookup than `m`: a hit under its kind, or a miss. */
  ghost predicate CountsOne(m: Metrics, n: Metrics, hit: Option<Hit>) {
    && n.hits + n.misses == m.hits + m.misses + 1
    && n.hits == m.hits + (if hit.Some? then 1 else 0)
    && n.exactHits == m.exactHits + (if hit.Some? && hit.value.kind == Exact then 1 else 0)
    && n.semanticHits == m.semanticHits + (if hit.Some? && hit.value.kind == Semantic then 1 else 0)
    && n.written == m.written
  }

  lemma SemanticIsCounted(cfg: Settings, sqrt: real -> real, c: Cache, versions: Versions, clock: nat -> real,
                          reply: Option<Vector>)
    ensures var (after, hit) := SemanticOf(cfg, sqrt, c, versions, clock, reply);
            CountsOne(c.metrics, after.metrics, hit)
  {
  }

  lemma LookupIsCounted(cfg: Settings, sqrt: real -> real, c: Cache, query: string, clock: nat -> real,
                        reply: Option<Vector>)
    ensures var (after, hit) := LookupOf(cfg, sqrt, c, query, clock, reply);
            if !cfg.enabled || QueryKeys.Normalize(query) == "" then after == c && hit == None
            else CountsOne(c.metrics, after.metrics, hit)
  {
    var (resolved, versions) := Resolved(cfg, c, clock(0));
    var key := AnswerKey(versions, QueryKeys.Normalize(query));
    var read := ReadEntry(resolved.store, key, versions, clock(1), clock(2)).0;
    SemanticIsCounted(cfg, sqrt, resolved.(store := read), versions, Later(clock, 4), reply);
  }

  /** A store is counted when it keeps the answer; a failed embedding, which keeps nothing, as an error. */
  lemma StoreIsCounted(cfg: Settings, lim: Limits, c: Cache, query: string, answer: string, metadata: G.Metadata,
                       clock: nat -> real, reply: Option<Vector>)
    ensures var (after, kept) := StoreOf(cfg, lim, c, query, answer, metadata, clock, reply);
            var (m, n) := (c.metrics, after.metrics);
            && (kept <==> cfg.enabled && QueryKeys.Normalize(query) != "" && (cfg.semantic ==> reply.Some?)
                          && G.Refuse(cfg.minConfidence, answer, metadata) == None)
            && (n.hits, n.misses, n.exactHits, n.semanticHits) == (m.hits, m.misses, m.exactHits, m.semanticHits)
            && n.written == (if kept then m.written + 1 else m.written)
            && (n.errors == m.errors || (n.errors == m.errors + 1 && !kept && reply == None))
  {
  }

  class CacheGateway {
    const cfg: Settings
    const backend: InMemoryCacheBackend
    const knowledgeBase: KnowledgeBaseVersion
    var metrics: Metrics

    constructor (cfg: Settings, backend: InMemoryCacheBackend, knowledgeBase: KnowledgeBaseVersion)
      requires knowledgeBase.backend == backend && backend.Sound()
      ensures this.cfg == cfg && this.backend == backend && this.knowledgeBase == knowledgeBase
      ensures Ready() && Contents() == Cache(backend.Contents(), knowledgeBase.lastKnown, Metrics(0, 0, 0, 0, 0, 0))
    {
      this.cfg, this.backend, this.knowledgeBase := cfg, backend, knowledgeBase;
      metrics := Metrics(0, 0, 0, 0, 0, 0);
    }

    ghost predicate Ready()
      reads this, backend
    {
      knowledgeBase.backend == backend && backend.Sound()
    }

    ghost function Contents(): Cache
      reads this, backend, knowledgeBase
    {
      Cache(backend.Contents(), knowledgeBase.lastKnown, metrics)
    }

    method Resolve(now: real) returns (versions: Versions)
      requires Ready()
      modifies backend, knowledgeBase
      ensures Ready() && Contents() == Resolved(cfg, old(Contents()), now).0
      ensures versions == Resolved(cfg, old(Contents()), now).1
    {
      var token := knowledgeBase.ReadCurrent(now);
      versions := Versions(token, cfg.model, cfg.prompts);
    }

    method Read(key: Key, versions: Versions, atGet: real, atCheck: real) returns (entry: Option<CachedAnswer>)
      requires Ready()
      modifies backend
      ensures Ready() && backend.Contents() == ReadEntry(old(backend.Contents()), key, versions, atGet, atCheck).0
      ensures entry == ReadEntry(old(backend.Contents()), key, versions, atGet, atCheck).1
    {
      var raw := backend.Get(key, atGet);
      if raw == None {
        return None;
      }
      entry := Parse(raw.value);
      if entry == None {
        backend.Delete(key);
        return None;
      }
      if !entry.value.IsLive(atCheck) {
        backend.Delete(key);
        return None;
      }
      if !entry.value.Matches(versions) {
        backend.Delete(key);
        return None;
      }
    }

    /** `_ranked_candidates`; vectors of another width are skipped. */
    method RankedCandidates(sqrt: real -> real, embedding: Vector, indexed: seq<(Key, Vector)>, threshold: real)
      returns (ranked: seq<Scored<Key>>)
      ensures ranked == Ranked(sqrt, embedding, indexed, threshold)
    {
      var scored: seq<Scored<Key>> := [];
      for i := 0 to |indexed|
        invariant scored == Candidates(sqrt, embedding, indexed[..i], threshold)
      {
        assert indexed[..i + 1][..i] == indexed[..i];
        var (key, vector) := indexed[i];
        if |vector| == |embedding| {
          var similarity := Cosine(sqrt, embedding, vector);
          if similarity >= threshold {
            scored := scored + [Scored(key, similarity)];
          }
        }
      }
      assert indexed[..|indexed|] == indexed;
      ranked := SortedByScore(scored);
    }

    method TryCandidate(key: Key, versions: Versions, atGet: real, atCheck: real) returns (entry: Option<CachedAnswer>)
      requires Ready()
      modifies backend
      ensures Ready() && backend.Contents() == Attempt(old(backend.Contents()), versions, key, atGet, atCheck).0
      ensures entry == Attempt(old(backend.Contents()), versions, key, atGet, atCheck).1
    {
      entry := Read(key, versions, atGet, atCheck);
      if entry == None {
        backend.IndexRemove(versions, key);
      }
    }

    method TryCandidates(ranked: seq<Scored<Key>>, versions: Versions, clock: nat -> real)
      returns (p: nat, entry: Option<CachedAnswer>)
      requires Ready()
      modifies backend
      ensures Ready() && (backend.Contents(), p, entry) == Scan(old(backend.Contents()), versions, ranked, clock, 0)
      ensures p <= |ranked| && (entry.Some? <==> p < |ranked|)
    {
      p, entry := 0, None;
      ghost var start := backend.Contents();
      while p < |ranked|
        invariant p <= |ranked| && Ready() && entry == None
        invariant Scan(backend.Contents(), versions, ranked, clock, p) == Scan(start, versions, ranked, clock, 0)
      {
        ScanOne(backend.Contents(), versions, ranked, clock, p);
        entry := TryCandidate(ranked[p].item, versions, clock(2 * p), clock(2 * p + 1));
        if entry.Some? {
          return;
        }
        p := p + 1;
      }
    }

    method Lookup(sqrt: real -> real, query: string, clock: nat -> real, reply: Option<Vector>)
      returns (hit: Option<Hit>)
      requires Ready()
      modifies this, backend, knowledgeBase
      ensures Ready() && Contents() == LookupOf(cfg, sqrt, old(Contents()), query, clock, reply).0
      ensures hit == LookupOf(cfg, sqrt, old(Contents()), query, clock, reply).1
      ensures if cfg.enabled && QueryKeys.Normalize(query) != "" then CountsOne(old(metrics), metrics, hit)
              else metrics == old(metrics) && hit == None
    {
      LookupIsCounted(cfg, sqrt, Contents(), query, clock, reply);
      if !cfg.enabled {
        return None;
      }
      var normalized := QueryKeys.Normalize(query);
      if normalized == "" {
        return None;
      }
      var versions := Resolve(clock(0));
      var key := AnswerKey(versions, normalized);
      var entry := Read(key, versions, clock(1), clock(2));
      if entry.Some? {
        metrics := CountedHit(metrics, Exact);
        return Some(Hit(entry.value, Exact, key, entry.value.AgeSeconds(clock(3)), 1.0));
      }
      hit := LookupSemantic(sqrt, versions, Later(clock, 4), reply);
    }

    method LookupSemantic(sqrt: real -> real, versions: Versions, clock: nat -> real, reply: Option<Vector>)
      returns (hit: Option<Hit>)
      requires Ready()
      modifies this, backend
      ensures Ready() && Contents() == SemanticOf(cfg, sqrt, old(Contents()), versions, clock, reply).0
      ensures hit == SemanticOf(cfg, sqrt, old(Contents()), versions, clock, reply).1
    {
      if !cfg.semantic {
        metrics := Missed(metrics);
        return None;
      }
      var indexed := backend.IndexEntries(versions);
      if indexed == [] {
        metrics := Missed(metrics);
        return None;
      }
      if reply == None {
        metrics := Missed(metrics.(errors := metrics.errors + 1));
        return None;
      }
      hit := BestMatch(sqrt, versions, clock, reply.value, indexed);
    }

    method BestMatch(sqrt: real -> real, versions: Versions, clock: nat -> real, embedding: Vector,
                     indexed: seq<(Key, Vector)>) returns (hit: Option<Hit>)
      requires Ready() && indexed == Pairs(IndexOf(backend.Contents(), versions))
      modifies this, backend
      ensures Ready() && Contents() == MatchOf(cfg, sqrt, old(Contents()), versions, clock, embedding).0
      ensures hit == MatchOf(cfg, sqrt, old(Contents()), versions, clock, embedding).1
    {
      var ranked := RankedCandidates(sqrt, embedding, indexed, cfg.threshold);
      var p, entry := TryCandidates(ranked, versions, clock);
      hit := SemanticHit(ranked, p, entry, clock);
      metrics := if entry.Some? then CountedHit(metrics, Semantic) else Missed(metrics);
    }

    method Store(query: string, answer: string, metadata: G.Metadata, clock: nat -> real, reply: Option<Vector>)
      returns (stored: bool)
      requires Ready()
      modifies this, backend, knowledgeBase
      ensures Ready()
      ensures Contents() == StoreOf(cfg, backend.lim, old(Contents()), query, answer, metadata, clock, reply).0
      ensures stored == StoreOf(cfg, backend.lim, old(Contents()), query, answer, metadata, clock, reply).1
      ensures metrics.written == old(metrics.written) + (if stored then 1 else 0)
      ensures metrics.hits == old(metrics.hits) && metrics.misses == old(metrics.misses)
    {
      StoreIsCounted(cfg, backend.lim, Contents(), query, answer, metadata, clock, reply);
      if !cfg.enabled {
        return false;
      }
      var normalized := QueryKeys.Normalize(query);
      if normalized == "" {
        return false;
      }
      var refusal := G.Refuse(cfg.minConfidence, answer, metadata);
      if refusal.Some? {
        return false;
      }
      stored := Admit(query, normalized, answer, metadata, clock, reply);
    }

    method Admit(query: string, normalized: string, answer: string, metadata: G.Metadata, clock: nat -> real,
                 reply: Option<Vector>) returns (stored: bool)
      requires Ready()
      modifies this, backend, knowledgeBase
      ensures Ready()
      ensures var (after, kept) :=
                AdmittedOf(cfg, backend.lim, old(Contents()), query, normalized, answer, metadata, clock, reply);
              Contents() == after && stored == kept
    {
      var versions := Resolve(clock(0));
      var embedding := [];
      if cfg.semantic {
        if reply == None {
          metrics := metrics.(errors := metrics.errors + 1);
          return false;
        }
        embedding := reply.value;
      }
      var entry := EntryOf(query, normalized, answer, metadata, versions, embedding, clock(1), cfg.ttl);
      Keep(entry, clock(2));
      metrics := metrics.(written := metrics.written + 1);
      return true;
    }

    method Keep(entry: CachedAnswer, now: real)
      requires Ready()
      modifies backend
      ensures Ready() && backend.Contents() == Kept(backend.lim, old(backend.Contents()), entry, cfg.ttl, now)
    {
      var key := AnswerKey(entry.versions, entry.normalized);
      backend.Set(key, Answer(entry), cfg.ttl, now);
      if entry.embedding != [] {
        backend.IndexAdd(entry.versions, key, entry.embedding);
      }
    }
  }
}
