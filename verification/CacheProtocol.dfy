/** Stores, lookups and version bumps interleaved at every `await`.

    Each step is one section run under the backend's lock together with the
    synchronous code up to the next `await`. Clock readings, embeddings and the
    order of steps are arbitrary; at any moment the cache may also be cleared, or
    an answer overwritten with text that no longer parses.
 */
module CacheProtocol {
  import opened Wrappers
  import opened OrderedDict
  import opened Vectors
  import opened Sorting
  import opened CacheRecords
  import opened CacheBackend
  import opened KnowledgeBase
  import opened Gateway
  import QueryKeys
  import G = AgentGraph
  import Lru = LruStore

  /** One accepted `store` call: what it keeps, and how many bumps had completed
      when it resolved its versions and when it was offered. */
  datatype Deposit = Deposit(
    query: string,
    answer: string,
    metadata: G.Metadata,
    versions: Versions,
    embedding: Vector,
    at: real,
    epoch: nat,
    offered: nat)

  function EntryFor(cfg: Settings, d: Deposit): CachedAnswer {
    EntryOf(d.query, QueryKeys.Normalize(d.query), d.answer, d.metadata, d.versions, d.embedding, d.at, cfg.ttl)
  }

  function KeyFor(d: Deposit): Key {
    AnswerKey(d.versions, QueryKeys.Normalize(d.query))
  }

  /** One lookup, once it has resolved its versions. */
  datatype Lookup = Lookup(query: string, versions: Versions, epoch: nat)

  /** Where a call is: each state names what it does next. */
  datatype Task =
    | Asking(query: string)
    | Reading(l: Lookup)
    | Purging(l: Lookup)
    | Listing(l: Lookup)
    | Embedding(l: Lookup, indexed: seq<(Key, Vector)>)
    | Trying(l: Lookup, x: Vector, ranked: seq<Scored<Key>>)
    | PurgingCandidate(l: Lookup, x: Vector, ranked: seq<Scored<Key>>)
    | Dropping(l: Lookup, x: Vector, ranked: seq<Scored<Key>>)
    | Found(l: Lookup, hit: Hit, x: Vector, at: real)
    | NotFound
    | Offering(query: string, answer: string, metadata: G.Metadata, offered: nat)
    | Vectorising(query: string, answer: string, metadata: G.Metadata, versions: Versions, epoch: nat, offered: nat)
    | Writing(d: Deposit)
    | Indexing(d: Deposit)
    | Finished

  /** `log` and `bumps` only record history: no step depends on them. */
  datatype World = World(store: Store, lastKnown: Token, bumping: Option<Token>, tasks: seq<Task>, log: set<Deposit>,
                         bumps: nat)

  const START := World(NOTHING, Number(0), None, [], {}, 0)

  datatype Step =
    | Ask(query: string)
    | Offer(query: string, answer: string, metadata: G.Metadata)
    | Run(i: nat, atGet: real, atCheck: real, reply: Option<Vector>)
    | BumpRead(now: real)
    | BumpWrite(now: real)
    | Clear
    | Garble(versions: Versions, normalized: string, text: string, ttl: real, now: real)

  // -------------------------------------------------------------- the steps

  function AfterExact(cfg: Settings, l: Lookup): Task {
    if cfg.semantic then Listing(l) else NotFound
  }

  function AfterCandidate(l: Lookup, x: Vector, ranked: seq<Scored<Key>>): Task {
    if |ranked| > 1 then Trying(l, x, ranked[1..]) else NotFound
  }

  function AfterEmbedding(cfg: Settings, sqrt: real -> real, l: Lookup, indexed: seq<(Key, Vector)>,
                          reply: Option<Vector>): Task
  {
    if reply == None then NotFound
    else
      var ranked := Ranked(sqrt, reply.value, indexed, cfg.threshold);
      if ranked == [] then NotFound else Trying(l, reply.value, ranked)
  }

  /** The task after a `get` of `key`, and where it goes if nothing is there or nothing is usable. */
  function AfterGet(st: Store, l: Lookup, key: Key, kind: Kind, similarity: real, x: Vector,
                    atGet: real, atCheck: real, absent: Task, unusable: Task): Task
  {
    match Lru.Peek(st.entries, key, atGet)
    case None => absent
    case Some(payload) =>
      match Accepted(payload, l.versions, atCheck)
      case None => unusable
      case Some(entry) => Found(l, Hit(entry, kind, key, entry.AgeSeconds(atCheck), similarity), x, atCheck)
  }

  function NextTask(cfg: Settings, sqrt: real -> real, w: World, t: Task, atGet: real, atCheck: real,
                    reply: Option<Vector>): Task
  {
    match t
    case Asking(query) =>
      Reading(Lookup(query, Versions(Current(w.store, w.lastKnown, atGet), cfg.model, cfg.prompts), w.bumps))
    case Reading(l) =>
      AfterGet(w.store, l, AnswerKey(l.versions, QueryKeys.Normalize(l.query)), Exact, 1.0, [], atGet, atCheck,
               AfterExact(cfg, l), Purging(l))
    case Purging(l) => AfterExact(cfg, l)
    case Listing(l) =>
      var indexed := Pairs(IndexOf(w.store, l.versions));
      if indexed == [] then NotFound else Embedding(l, indexed)
    case Embedding(l, indexed) =>
      AfterEmbedding(cfg, sqrt, l, indexed, reply)
    case Trying(l, x, ranked) =>
      if ranked == [] then NotFound
      else AfterGet(w.store, l, ranked[0].item, Semantic, ranked[0].score, x, atGet, atCheck, Dropping(l, x, ranked),
                    PurgingCandidate(l, x, ranked))
    case PurgingCandidate(l, x, ranked) => Dropping(l, x, ranked)
    case Dropping(l, x, ranked) => AfterCandidate(l, x, ranked)
    case Offering(query, answer, metadata, offered) =>
      var versions := Versions(Current(w.store, w.lastKnown, atGet), cfg.model, cfg.prompts);
      Vectorising(query, answer, metadata, versions, w.bumps, offered)
    case Vectorising(query, answer, metadata, versions, epoch, offered) =>
      if cfg.semantic && reply == None then Finished
      else
        var embedding := if cfg.semantic then reply.value else [];
        Writing(Deposit(query, answer, metadata, versions, embedding, atCheck, epoch, offered))
    case Writing(d) => if d.embedding != [] then Indexing(d) else Finished
    case Indexing(_) => Finished
    case _ => t
  }

  function NextStore(cfg: Settings, lim: Limits, st: Store, t: Task, now: real): Store {
    match t
    case Asking(_) => Fetched(st, CounterKey, now)
    case Reading(l) => Fetched(st, AnswerKey(l.versions, QueryKeys.Normalize(l.query)), now)
    case Purging(l) => Deleted(st, AnswerKey(l.versions, QueryKeys.Normalize(l.query)))
    case Trying(_, _, ranked) => if ranked == [] then st else Fetched(st, ranked[0].item, now)
    case PurgingCandidate(_, _, ranked) => if ranked == [] then st else Deleted(st, ranked[0].item)
    case Dropping(l, _, ranked) => if ranked == [] then st else Unindexed(st, l.versions, ranked[0].item)
    case Offering(_, _, _, _) => Fetched(st, CounterKey, now)
    case Writing(d) => Put(lim, st, KeyFor(d), Answer(EntryFor(cfg, d)), cfg.ttl, now)
    case Indexing(d) => Indexed(lim, st, d.versions, KeyFor(d), d.embedding)
    case _ => st
  }

  /** The version last seen changes in the same section as the read that saw it. */
  function NextLastKnown(w: World, t: Task, now: real): Token {
    if t.Asking? || t.Offering? then Current(w.store, w.lastKnown, now) else w.lastKnown
  }

  /** The question is not blank, and the gate lets the answer through. */
  predicate Admitted(cfg: Settings, query: string, answer: string, metadata: G.Metadata) {
    QueryKeys.Normalize(query) != "" && G.Refuse(cfg.minConfidence, answer, metadata) == None
  }

  function Next(cfg: Settings, lim: Limits, sqrt: real -> real, w: World, step: Step): World {
    match step
    case Ask(query) =>
      w.(tasks := w.tasks + [if cfg.enabled && QueryKeys.Normalize(query) != "" then Asking(query) else NotFound])
    case Offer(query, answer, metadata) =>
      var admitted := cfg.enabled && Admitted(cfg, query, answer, metadata);
      w.(tasks := w.tasks + [if admitted then Offering(query, answer, metadata, w.bumps) else Finished])
    case Run(i, atGet, atCheck, reply) =>
      if i >= |w.tasks| then w
      else
        var t := w.tasks[i];
        w.(store := NextStore(cfg, lim, w.store, t, atGet),
           lastKnown := NextLastKnown(w, t, atGet),
           tasks := w.tasks[i := NextTask(cfg, sqrt, w, t, atGet, atCheck, reply)],
           log := if t.Writing? then w.log + {t.d} else w.log)
    case BumpRead(now) =>
      if w.bumping.Some? then w
      else
        var current := Current(w.store, w.lastKnown, now);
        w.(store := Fetched(w.store, CounterKey, now), lastKnown := current, bumping := Some(current))
    case BumpWrite(now) =>
      if w.bumping == None then w
      else
        var next := KnowledgeBase.Next(w.bumping.value);
        w.(store := Put(lim, w.store, CounterKey, Counter(next), 0.0, now), lastKnown := next, bumping := None,
           bumps := w.bumps + 1)
    case Clear => w.(store := NOTHING)
    case Garble(versions, normalized, text, ttl, now) =>
      w.(store := Put(lim, w.store, AnswerKey(versions, normalized), Unreadable(text), ttl, now))
  }

  function Reach(cfg: Settings, lim: Limits, sqrt: real -> real, steps: seq<Step>): World {
    if steps == [] then START
    else Next(cfg, lim, sqrt, Reach(cfg, lim, sqrt, steps[..|steps| - 1]), steps[|steps| - 1])
  }

  // ---------------------------------------------------------- the invariant

  ghost predicate Stamped(cfg: Settings, bumps: nat, versions: Versions, epoch: nat) {
    versions == Versions(Number(epoch), cfg.model, cfg.prompts) && epoch <= bumps
  }

  ghost predicate Genuine(cfg: Settings, bumps: nat, d: Deposit) {
    && Stamped(cfg, bumps, d.versions, d.epoch)
    && Admitted(cfg, d.query, d.answer, d.metadata)
    && d.offered <= d.epoch
  }

  /** An answer under `k` was put there by a logged store. */
  ghost predicate Backed(cfg: Settings, log: set<Deposit>, k: Key, entry: CachedAnswer) {
    exists d :: d in log && k == KeyFor(d) && entry == EntryFor(cfg, d)
  }

  ghost predicate EntryOk(cfg: Settings, log: set<Deposit>, lastKnown: Token, k: Key, slot: Lru.Slot<Payload>) {
    match k
    case CounterKey => slot == Lru.Slot(Counter(lastKnown), None)
    case AnswerKey(_, _) => slot.value.Answer? ==> Backed(cfg, log, k, slot.value.entry)
  }

  ghost predicate EntriesOk(cfg: Settings, log: set<Deposit>, lastKnown: Token, entries: Lru.Table<Key, Payload>) {
    Valid(entries) && forall k :: k in entries.items ==> EntryOk(cfg, log, lastKnown, k, entries.items[k])
  }

  /** A vector in namespace `ns` was computed by a logged store under those versions. */
  ghost predicate VectorOk(log: set<Deposit>, ns: Versions, k: Key, vector: Vector) {
    exists d :: d in log && d.versions == ns && k == KeyFor(d) && vector == d.embedding
  }

  ghost predicate IndexOk(log: set<Deposit>, ns: Versions, d: Index) {
    Valid(d) && forall k :: k in d.items ==> VectorOk(log, ns, k, d.items[k])
  }

  ghost predicate IndexesOk(log: set<Deposit>, index: map<Versions, Index>) {
    forall ns :: ns in index ==> IndexOk(log, ns, index[ns])
  }

  ghost predicate PairsOk(log: set<Deposit>, ns: Versions, indexed: seq<(Key, Vector)>) {
    && (forall i :: 0 <= i < |indexed| ==> VectorOk(log, ns, indexed[i].0, indexed[i].1))
    && (forall i, j :: 0 <= i < j < |indexed| ==> indexed[i].0 != indexed[j].0)
  }

  /** The score is the cosine with a vector some logged store under `ns` computed for this key. */
  ghost predicate ScoreOk(cfg: Settings, sqrt: real -> real, log: set<Deposit>, ns: Versions, x: Vector, c: Scored<Key>)
  {
    exists d :: d in log && d.versions == ns && c.item == KeyFor(d)
      && Scores(sqrt, x, cfg.threshold, c.item, d.embedding, c)
  }

  ghost predicate ScoresOk(cfg: Settings, sqrt: real -> real, log: set<Deposit>, ns: Versions, x: Vector,
                           ranked: seq<Scored<Key>>)
  {
    forall i :: 0 <= i < |ranked| ==> ScoreOk(cfg, sqrt, log, ns, x, ranked[i])
  }

  /** What a hit owes its caller. */
  ghost predicate HitOk(cfg: Settings, sqrt: real -> real, log: set<Deposit>, l: Lookup, hit: Hit, x: Vector, at: real)
  {
    && Backed(cfg, log, hit.key, hit.entry)
    && hit.entry.Matches(l.versions) && hit.entry.IsLive(at)
    && (hit.kind == Exact ==> hit.key == AnswerKey(l.versions, QueryKeys.Normalize(l.query)))
    && (hit.kind == Semantic ==> ScoreOk(cfg, sqrt, log, l.versions, x, Scored(hit.key, hit.similarity)))
  }

  ghost predicate TaskOk(cfg: Settings, sqrt: real -> real, log: set<Deposit>, bumps: nat, t: Task) {
    match t
    case Reading(l) => Stamped(cfg, bumps, l.versions, l.epoch)
    case Purging(l) => Stamped(cfg, bumps, l.versions, l.epoch)
    case Listing(l) => Stamped(cfg, bumps, l.versions, l.epoch)
    case Embedding(l, indexed) => Stamped(cfg, bumps, l.versions, l.epoch) && PairsOk(log, l.versions, indexed)
    case Trying(l, x, ranked) =>
      Stamped(cfg, bumps, l.versions, l.epoch) && ScoresOk(cfg, sqrt, log, l.versions, x, ranked)
    case PurgingCandidate(l, x, ranked) =>
      Stamped(cfg, bumps, l.versions, l.epoch) && ScoresOk(cfg, sqrt, log, l.versions, x, ranked)
    case Dropping(l, x, ranked) =>
      Stamped(cfg, bumps, l.versions, l.epoch) && ScoresOk(cfg, sqrt, log, l.versions, x, ranked)
    case Found(l, hit, x, at) => Stamped(cfg, bumps, l.versions, l.epoch) && HitOk(cfg, sqrt, log, l, hit, x, at)
    case Offering(query, answer, metadata, offered) => Admitted(cfg, query, answer, metadata) && offered <= bumps
    case Vectorising(query, answer, metadata, versions, epoch, offered) =>
      Stamped(cfg, bumps, versions, epoch) && Admitted(cfg, query, answer, metadata) && offered <= epoch
    case Writing(d) => Genuine(cfg, bumps, d)
    case Indexing(d) => d in log
    case _ => true
  }

  ghost predicate TasksOk(cfg: Settings, sqrt: real -> real, log: set<Deposit>, bumps: nat, tasks: seq<Task>) {
    forall i :: 0 <= i < |tasks| ==> TaskOk(cfg, sqrt, log, bumps, tasks[i])
  }

  ghost predicate LogOk(cfg: Settings, bumps: nat, log: set<Deposit>) {
    forall d :: d in log ==> Genuine(cfg, bumps, d)
  }

  ghost predicate Inv(cfg: Settings, sqrt: real -> real, w: World) {
    && w.lastKnown == Number(w.bumps)
    && (w.bumping.Some? ==> w.bumping.value == Number(w.bumps))
    && LogOk(cfg, w.bumps, w.log)
    && EntriesOk(cfg, w.log, w.lastKnown, w.store.entries)
    && IndexesOk(w.log, w.store.index)
    && TasksOk(cfg, sqrt, w.log, w.bumps, w.tasks)
  }

  // ------------------------------------------------------ history only grows

  lemma TaskPersists(cfg: Settings, sqrt: real -> real, log: set<Deposit>, bumps: nat, log': set<Deposit>,
                     bumps': nat, t: Task)
    requires log <= log' && bumps <= bumps' && TaskOk(cfg, sqrt, log, bumps, t)
    ensures TaskOk(cfg, sqrt, log', bumps', t)
  {
  }

  lemma EntriesPersist(cfg: Settings, log: set<Deposit>, log': set<Deposit>, lastKnown: Token,
                       entries: Lru.Table<Key, Payload>)
    requires log <= log' && EntriesOk(cfg, log, lastKnown, entries)
    ensures EntriesOk(cfg, log', lastKnown, entries)
  {
  }

  lemma IndexesPersist(log: set<Deposit>, log': set<Deposit>, index: map<Versions, Index>)
    requires log <= log' && IndexesOk(log, index)
    ensures IndexesOk(log', index)
  {
  }

  // -------------------------------------------------------- the store halves

  lemma EntriesLost(cfg: Settings, log: set<Deposit>, lastKnown: Token, before: Lru.Table<Key, Payload>,
                    after: Lru.Table<Key, Payload>, gone: set<Key>)
    requires EntriesOk(cfg, log, lastKnown, before) && Lost(before, after, gone)
    ensures EntriesOk(cfg, log, lastKnown, after)
  {
  }

  lemma FetchedOk(cfg: Settings, log: set<Deposit>, lastKnown: Token, st: Store, key: Key, now: real)
    requires EntriesOk(cfg, log, lastKnown, st.entries)
    ensures EntriesOk(cfg, log, lastKnown, Fetched(st, key, now).entries)
  {
    Lru.ReadLoses(st.entries, key, now);
    EntriesLost(cfg, log, lastKnown, st.entries, Fetched(st, key, now).entries,
                if Lru.Peek(st.entries, key, now).Some? then {} else {key});
  }

  lemma DeletedOk(cfg: Settings, log: set<Deposit>, lastKnown: Token, st: Store, key: Key)
    requires EntriesOk(cfg, log, lastKnown, st.entries)
    ensures EntriesOk(cfg, log, lastKnown, Deleted(st, key).entries)
  {
    LostWithout(st.entries, key);
    EntriesLost(cfg, log, lastKnown, st.entries, Without(st.entries, key), {key});
  }

  lemma PutOk(cfg: Settings, lim: Limits, log: set<Deposit>, lastKnown: Token, st: Store, key: Key, value: Payload,
              ttl: real, now: real)
    requires EntriesOk(cfg, log, lastKnown, st.entries)
    requires EntryOk(cfg, log, lastKnown, key, Lru.Slot(value, Deadline(ttl, now)))
    ensures EntriesOk(cfg, log, lastKnown, Put(lim, st, key, value, ttl, now).entries)
  {
    Lru.WriteEffect(st.entries, lim.maxEntries, key, Lru.Slot(value, Deadline(ttl, now)));
  }

  /** Writing the counter makes it agree with the new version, whatever the old one was. */
  lemma CounterOk(cfg: Settings, lim: Limits, log: set<Deposit>, lastKnown: Token, next: Token, st: Store, now: real)
    requires EntriesOk(cfg, log, lastKnown, st.entries)
    ensures EntriesOk(cfg, log, next, Put(lim, st, CounterKey, Counter(next), 0.0, now).entries)
  {
    Lru.WriteEffect(st.entries, lim.maxEntries, CounterKey, Lru.Slot(Counter(next), None));
  }

  lemma UnindexedOk(log: set<Deposit>, st: Store, ns: Versions, key: Key)
    requires IndexesOk(log, st.index)
    ensures IndexesOk(log, Unindexed(st, ns, key).index)
  {
    if ns in st.index {
      LostWithout(st.index[ns], key);
      assert IndexOk(log, ns, Without(st.index[ns], key));
    }
  }

  lemma IndexPutOk(lim: Limits, log: set<Deposit>, ns: Versions, d: Index, key: Key, vector: Vector)
    requires IndexOk(log, ns, d) && VectorOk(log, ns, key, vector)
    ensures IndexOk(log, ns, Trim(PutLast(d, key, vector), lim.indexMax))
  {
    PutLastValid(d, key, vector);
    TrimValid(PutLast(d, key, vector), lim.indexMax);
  }

  lemma IndexedOk(lim: Limits, log: set<Deposit>, st: Store, ns: Versions, key: Key, vector: Vector)
    requires IndexesOk(log, st.index) && VectorOk(log, ns, key, vector)
    ensures IndexesOk(log, Indexed(lim, st, ns, key, vector).index)
  {
    IndexPutOk(lim, log, ns, IndexOf(st, ns), key, vector);
  }

  // -------------------------------------------------------------- the tasks

  /** Reading keeps the counter: what `resolve` returns is the number of completed bumps. */
  lemma ResolvesToBumps(cfg: Settings, sqrt: real -> real, w: World, now: real)
    requires Inv(cfg, sqrt, w)
    ensures Current(w.store, w.lastKnown, now) == w.lastKnown == Number(w.bumps)
  {
  }

  lemma GetOk(cfg: Settings, sqrt: real -> real, log: set<Deposit>, bumps: nat, lastKnown: Token, st: Store,
              l: Lookup, key: Key, kind: Kind, similarity: real, x: Vector, atGet: real, atCheck: real, absent: Task,
              unusable: Task)
    requires EntriesOk(cfg, log, lastKnown, st.entries) && Stamped(cfg, bumps, l.versions, l.epoch) && key.AnswerKey?
    requires kind == Exact ==> key == AnswerKey(l.versions, QueryKeys.Normalize(l.query))
    requires kind == Semantic ==> ScoreOk(cfg, sqrt, log, l.versions, x, Scored(key, similarity))
    requires TaskOk(cfg, sqrt, log, bumps, absent) && TaskOk(cfg, sqrt, log, bumps, unusable)
    ensures TaskOk(cfg, sqrt, log, bumps, AfterGet(st, l, key, kind, similarity, x, atGet, atCheck, absent, unusable))
  {
  }

  lemma ListingOk(log: set<Deposit>, ns: Versions, st: Store)
    requires IndexesOk(log, st.index)
    ensures PairsOk(log, ns, Pairs(IndexOf(st, ns)))
  {
    var d := IndexOf(st, ns);
    assert IndexOk(log, ns, d);
    forall i | 0 <= i < |d.order| ensures VectorOk(log, ns, Pairs(d)[i].0, Pairs(d)[i].1) {
      assert d.order[i] in d.order;
    }
  }

  lemma RankingOk(cfg: Settings, sqrt: real -> real, log: set<Deposit>, ns: Versions, x: Vector,
                  indexed: seq<(Key, Vector)>)
    requires PairsOk(log, ns, indexed)
    ensures ScoresOk(cfg, sqrt, log, ns, x, Ranked(sqrt, x, indexed, cfg.threshold))
  {
    var ranked := Ranked(sqrt, x, indexed, cfg.threshold);
    forall j | 0 <= j < |ranked| ensures ScoreOk(cfg, sqrt, log, ns, x, ranked[j]) {
      var i := RankedFrom(sqrt, x, indexed, cfg.threshold, ranked[j]);
      assert VectorOk(log, ns, indexed[i].0, indexed[i].1);
    }
  }

  ghost function LogAfter(log: set<Deposit>, t: Task): set<Deposit> {
    if t.Writing? then log + {t.d} else log
  }

  lemma ReadingOk(cfg: Settings, sqrt: real -> real, w: World, l: Lookup, atGet: real, atCheck: real,
                  reply: Option<Vector>)
    requires Inv(cfg, sqrt, w) && TaskOk(cfg, sqrt, w.log, w.bumps, Reading(l))
    ensures TaskOk(cfg, sqrt, w.log, w.bumps, NextTask(cfg, sqrt, w, Reading(l), atGet, atCheck, reply))
  {
    var key := AnswerKey(l.versions, QueryKeys.Normalize(l.query));
    GetOk(cfg, sqrt, w.log, w.bumps, w.lastKnown, w.store, l, key, Exact, 1.0, [], atGet, atCheck,
          AfterExact(cfg, l), Purging(l));
  }

  lemma TryingOk(cfg: Settings, sqrt: real -> real, w: World, l: Lookup, x: Vector, ranked: seq<Scored<Key>>,
                 atGet: real, atCheck: real, reply: Option<Vector>)
    requires Inv(cfg, sqrt, w) && TaskOk(cfg, sqrt, w.log, w.bumps, Trying(l, x, ranked))
    ensures TaskOk(cfg, sqrt, w.log, w.bumps, NextTask(cfg, sqrt, w, Trying(l, x, ranked), atGet, atCheck, reply))
  {
    if ranked != [] {
      assert ScoreOk(cfg, sqrt, w.log, l.versions, x, ranked[0]);
      assert ranked[0] == Scored(ranked[0].item, ranked[0].score);
      GetOk(cfg, sqrt, w.log, w.bumps, w.lastKnown, w.store, l, ranked[0].item, Semantic, ranked[0].score, x,
            atGet, atCheck, Dropping(l, x, ranked), PurgingCandidate(l, x, ranked));
    }
  }

  lemma NextTaskOk(cfg: Settings, sqrt: real -> real, w: World, t: Task, atGet: real, atCheck: real,
                   reply: Option<Vector>)
    requires Inv(cfg, sqrt, w) && TaskOk(cfg, sqrt, w.log, w.bumps, t)
    ensures TaskOk(cfg, sqrt, LogAfter(w.log, t), w.bumps, NextTask(cfg, sqrt, w, t, atGet, atCheck, reply))
  {
    match t {
      case Asking(_) => ResolvesToBumps(cfg, sqrt, w, atGet);
      case Offering(_, _, _, _) => ResolvesToBumps(cfg, sqrt, w, atGet);
      case Reading(l) => ReadingOk(cfg, sqrt, w, l, atGet, atCheck, reply);
      case Listing(l) => ListingOk(w.log, l.versions, w.store);
      case Embedding(l, indexed) =>
        if reply.Some? {
          RankingOk(cfg, sqrt, w.log, l.versions, reply.value, indexed);
        }
      case Trying(l, x, ranked) => TryingOk(cfg, sqrt, w, l, x, ranked, atGet, atCheck, reply);
      case _ =>
    }
  }

  /** Entries change only by a read, a deletion, or the write of an answer. */
  lemma EntriesAfter(cfg: Settings, lim: Limits, st: Store, t: Task, now: real)
    ensures var next := NextStore(cfg, lim, st, t, now).entries;
            || next == st.entries
            || (exists key :: next == Fetched(st, key, now).entries)
            || (exists key :: next == Deleted(st, key).entries)
            || (t.Writing? && next == Put(lim, st, KeyFor(t.d), Answer(EntryFor(cfg, t.d)), cfg.ttl, now).entries)
  {
  }

  /** Vectors change only by a removal, or the adding of an answer's own. */
  lemma IndexAfter(cfg: Settings, lim: Limits, st: Store, t: Task, now: real)
    ensures var next := NextStore(cfg, lim, st, t, now).index;
            if t.Indexing? then next == Indexed(lim, st, t.d.versions, KeyFor(t.d), t.d.embedding).index
            else if t.Dropping? && t.ranked != [] then next == Unindexed(st, t.l.versions, t.ranked[0].item).index
            else next == st.index
  {
  }

  lemma NextEntriesOk(cfg: Settings, lim: Limits, log: set<Deposit>, lastKnown: Token, st: Store, t: Task, now: real)
    requires EntriesOk(cfg, log, lastKnown, st.entries) && (t.Writing? ==> t.d in log)
    ensures EntriesOk(cfg, log, lastKnown, NextStore(cfg, lim, st, t, now).entries)
  {
    var next := NextStore(cfg, lim, st, t, now).entries;
    EntriesAfter(cfg, lim, st, t, now);
    forall key ensures EntriesOk(cfg, log, lastKnown, Fetched(st, key, now).entries) {
      FetchedOk(cfg, log, lastKnown, st, key, now);
    }
    forall key ensures EntriesOk(cfg, log, lastKnown, Deleted(st, key).entries) {
      DeletedOk(cfg, log, lastKnown, st, key);
    }
    if t.Writing? {
      assert Backed(cfg, log, KeyFor(t.d), EntryFor(cfg, t.d));
      PutOk(cfg, lim, log, lastKnown, st, KeyFor(t.d), Answer(EntryFor(cfg, t.d)), cfg.ttl, now);
    }
  }

  lemma NextIndexesOk(cfg: Settings, lim: Limits, log: set<Deposit>, st: Store, t: Task, now: real)
    requires IndexesOk(log, st.index) && (t.Indexing? ==> t.d in log)
    ensures IndexesOk(log, NextStore(cfg, lim, st, t, now).index)
  {
    IndexAfter(cfg, lim, st, t, now);
    if t.Indexing? {
      assert VectorOk(log, t.d.versions, KeyFor(t.d), t.d.embedding);
      IndexedOk(lim, log, st, t.d.versions, KeyFor(t.d), t.d.embedding);
    } else if t.Dropping? && t.ranked != [] {
      UnindexedOk(log, st, t.l.versions, t.ranked[0].item);
    }
  }

  lemma NextStoreOk(cfg: Settings, lim: Limits, sqrt: real -> real, w: World, t: Task, now: real)
    requires Inv(cfg, sqrt, w) && TaskOk(cfg, sqrt, w.log, w.bumps, t)
    ensures EntriesOk(cfg, LogAfter(w.log, t), w.lastKnown, NextStore(cfg, lim, w.store, t, now).entries)
    ensures IndexesOk(LogAfter(w.log, t), NextStore(cfg, lim, w.store, t, now).index)
  {
    var log := LogAfter(w.log, t);
    EntriesPersist(cfg, w.log, log, w.lastKnown, w.store.entries);
    IndexesPersist(w.log, log, w.store.index);
    NextEntriesOk(cfg, lim, log, w.lastKnown, w.store, t, now);
    NextIndexesOk(cfg, lim, log, w.store, t, now);
  }

  lemma RunKeepsInv(cfg: Settings, lim: Limits, sqrt: real -> real, w: World, step: Step)
    requires Inv(cfg, sqrt, w) && step.Run?
    ensures Inv(cfg, sqrt, Next(cfg, lim, sqrt, w, step))
  {
    if step.i < |w.tasks| {
      var t, log := w.tasks[step.i], LogAfter(w.log, w.tasks[step.i]);
      ResolvesToBumps(cfg, sqrt, w, step.atGet);
      NextTaskOk(cfg, sqrt, w, t, step.atGet, step.atCheck, step.reply);
      NextStoreOk(cfg, lim, sqrt, w, t, step.atGet);
      TasksPersist(cfg, sqrt, w.log, w.bumps, log, w.bumps, w.tasks);
    }
  }

  lemma TasksPersist(cfg: Settings, sqrt: real -> real, log: set<Deposit>, bumps: nat, log': set<Deposit>,
                     bumps': nat, tasks: seq<Task>)
    requires log <= log' && bumps <= bumps' && TasksOk(cfg, sqrt, log, bumps, tasks)
    ensures TasksOk(cfg, sqrt, log', bumps', tasks)
  {
    forall i | 0 <= i < |tasks| ensures TaskOk(cfg, sqrt, log', bumps', tasks[i]) {
      TaskPersists(cfg, sqrt, log, bumps, log', bumps', tasks[i]);
    }
  }

  lemma TasksGrow(cfg: Settings, sqrt: real -> real, log: set<Deposit>, bumps: nat, tasks: seq<Task>, t: Task)
    requires TasksOk(cfg, sqrt, log, bumps, tasks) && TaskOk(cfg, sqrt, log, bumps, t)
    ensures TasksOk(cfg, sqrt, log, bumps, tasks + [t])
  {
  }

  lemma ArrivalKeepsInv(cfg: Settings, lim: Limits, sqrt: real -> real, w: World, step: Step)
    requires Inv(cfg, sqrt, w) && (step.Ask? || step.Offer?)
    ensures Inv(cfg, sqrt, Next(cfg, lim, sqrt, w, step))
  {
    var tasks := Next(cfg, lim, sqrt, w, step).tasks;
    TasksGrow(cfg, sqrt, w.log, w.bumps, w.tasks, tasks[|w.tasks|]);
    assert tasks == w.tasks + [tasks[|w.tasks|]];
  }

  lemma BumpKeepsInv(cfg: Settings, lim: Limits, sqrt: real -> real, w: World, step: Step)
    requires Inv(cfg, sqrt, w) && (step.BumpRead? || step.BumpWrite?)
    ensures Inv(cfg, sqrt, Next(cfg, lim, sqrt, w, step))
  {
    if step.BumpRead? {
      ResolvesToBumps(cfg, sqrt, w, step.now);
      FetchedOk(cfg, w.log, w.lastKnown, w.store, CounterKey, step.now);
    } else if w.bumping.Some? {
      CounterOk(cfg, lim, w.log, w.lastKnown, Number(w.bumps + 1), w.store, step.now);
      TasksPersist(cfg, sqrt, w.log, w.bumps, w.log, w.bumps + 1, w.tasks);
    }
  }

  lemma DamageKeepsInv(cfg: Settings, lim: Limits, sqrt: real -> real, w: World, step: Step)
    requires Inv(cfg, sqrt, w) && (step.Clear? || step.Garble?)
    ensures Inv(cfg, sqrt, Next(cfg, lim, sqrt, w, step))
  {
    if step.Garble? {
      PutOk(cfg, lim, w.log, w.lastKnown, w.store, AnswerKey(step.versions, step.normalized), Unreadable(step.text),
            step.ttl, step.now);
    }
  }

  lemma NextKeepsInv(cfg: Settings, lim: Limits, sqrt: real -> real, w: World, step: Step)
    requires Inv(cfg, sqrt, w)
    ensures Inv(cfg, sqrt, Next(cfg, lim, sqrt, w, step))
  {
    if step.Run? {
      RunKeepsInv(cfg, lim, sqrt, w, step);
    } else if step.Ask? || step.Offer? {
      ArrivalKeepsInv(cfg, lim, sqrt, w, step);
    } else if step.BumpRead? || step.BumpWrite? {
      BumpKeepsInv(cfg, lim, sqrt, w, step);
    } else {
      DamageKeepsInv(cfg, lim, sqrt, w, step);
    }
  }

  lemma {:induction false} AlwaysInv(cfg: Settings, lim: Limits, sqrt: real -> real, steps: seq<Step>)
    ensures Inv(cfg, sqrt, Reach(cfg, lim, sqrt, steps))
  {
    if steps != [] {
      var before := steps[..|steps| - 1];
      AlwaysInv(cfg, lim, sqrt, before);
      NextKeepsInv(cfg, lim, sqrt, Reach(cfg, lim, sqrt, before), steps[|steps| - 1]);
    }
  }

  // ------------------------------------------------------------- the results

  /** The counter is the number of completed bumps, in every interleaving: it
      grows with each, and no eviction, expiry or clearing turns it back. */
  lemma CounterCountsBumps(cfg: Settings, lim: Limits, sqrt: real -> real, steps: seq<Step>, now: real)
    ensures var w := Reach(cfg, lim, sqrt, steps); Current(w.store, w.lastKnown, now) == Number(w.bumps)
  {
    AlwaysInv(cfg, lim, sqrt, steps);
    ResolvesToBumps(cfg, sqrt, Reach(cfg, lim, sqrt, steps), now);
  }

  /** Everything a hit promises, against the store `d` it came from. */
  ghost predicate Answers(cfg: Settings, sqrt: real -> real, log: set<Deposit>, l: Lookup, hit: Hit, x: Vector,
                          at: real, d: Deposit)
  {
    && d in log && hit.entry == EntryFor(cfg, d) && hit.key == KeyFor(d)
    && Admitted(cfg, d.query, d.answer, d.metadata)
    && d.versions == l.versions && at < hit.entry.expiresAt
    && (hit.kind == Exact ==> QueryKeys.Normalize(d.query) == QueryKeys.Normalize(l.query))
    && (hit.kind == Semantic ==> ScoreOk(cfg, sqrt, log, l.versions, x, Scored(hit.key, hit.similarity)))
  }

  lemma HitIsBacked(cfg: Settings, sqrt: real -> real, log: set<Deposit>, bumps: nat, l: Lookup, hit: Hit, x: Vector,
                    at: real)
    returns (d: Deposit)
    requires LogOk(cfg, bumps, log) && HitOk(cfg, sqrt, log, l, hit, x, at)
    ensures Answers(cfg, sqrt, log, l, hit, x, at, d)
  {
    d :| d in log && hit.key == KeyFor(d) && hit.entry == EntryFor(cfg, d);
    assert Genuine(cfg, bumps, d);
  }

  /** Version invalidation: whatever store an answer came from, the lookup it is
      served to resolved its versions with the same bumps completed. So a lookup
      that resolved after a bump never gets an answer whose store resolved before it. */
  lemma VersionInvalidation(cfg: Settings, lim: Limits, sqrt: real -> real, steps: seq<Step>, i: nat, d: Deposit)
    requires i < |Reach(cfg, lim, sqrt, steps).tasks| && Reach(cfg, lim, sqrt, steps).tasks[i].Found?
    requires d in Reach(cfg, lim, sqrt, steps).log
             && EntryFor(cfg, d) == Reach(cfg, lim, sqrt, steps).tasks[i].hit.entry
    ensures d.epoch == Reach(cfg, lim, sqrt, steps).tasks[i].l.epoch <= Reach(cfg, lim, sqrt, steps).bumps
  {
    AlwaysInv(cfg, lim, sqrt, steps);
    var w := Reach(cfg, lim, sqrt, steps);
    assert TaskOk(cfg, sqrt, w.log, w.bumps, w.tasks[i]);
    assert Genuine(cfg, w.bumps, d);
  }
}
