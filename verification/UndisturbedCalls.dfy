/** The interleaved protocol, run without interference, is the gateway. */
module UndisturbedCalls {
  import opened Wrappers
  import opened Vectors
  import opened Sorting
  import opened CacheRecords
  import opened CacheBackend
  import opened Gateway
  import opened CacheProtocol
  import QueryKeys
  import G = AgentGraph

  function Perform(cfg: Settings, lim: Limits, sqrt: real -> real, w: World, steps: seq<Step>): World
    decreases |steps|
  {
    if steps == [] then w else Perform(cfg, lim, sqrt, CacheProtocol.Next(cfg, lim, sqrt, w, steps[0]), steps[1..])
  }

  lemma Prepended(cfg: Settings, lim: Limits, sqrt: real -> real, w: World, step: Step, rest: seq<Step>)
    ensures Perform(cfg, lim, sqrt, w, [step] + rest)
              == Perform(cfg, lim, sqrt, CacheProtocol.Next(cfg, lim, sqrt, w, step), rest)
  {
    assert ([step] + rest)[1..] == rest;
  }

  /** Nothing but task `i` acts, and the embedding service gives it this reply. */
  ghost predicate Alone(steps: seq<Step>, i: nat, reply: Option<Vector>) {
    forall j :: 0 <= j < |steps| ==> steps[j].Run? && steps[j].i == i && steps[j].reply == reply
  }

  /** Task `i` of `w` ended with what the gateway returned, and the shared state is the gateway's. */
  ghost predicate Ended(w: World, i: nat, store: Store, lastKnown: Token, hit: Option<Hit>) {
    && w.store == store && w.lastKnown == lastKnown && i < |w.tasks|
    && match hit
       case None => w.tasks[i].NotFound?
       case Some(h) => w.tasks[i].Found? && w.tasks[i].hit.(age := h.age) == h
  }

  /** Trying the candidates from `p` on is the gateway's scan from `p`. */
  lemma {:induction false} TryingScans(cfg: Settings, lim: Limits, sqrt: real -> real, w: World, i: nat, l: Lookup,
                                       x: Vector, ranked: seq<Scored<Key>>, clock: nat -> real, p: nat,
                                       reply: Option<Vector>)
    returns (steps: seq<Step>)
    requires i < |w.tasks| && p < |ranked| && w.tasks[i] == Trying(l, x, ranked[p..])
    ensures Alone(steps, i, reply)
    ensures var (after, q, entry) := Scan(w.store, l.versions, ranked, clock, p);
            q <= |ranked| && (entry.Some? <==> q < |ranked|) &&
            Ended(Perform(cfg, lim, sqrt, w, steps), i, after, w.lastKnown, SemanticHit(ranked, q, entry, clock))
    decreases |ranked| - p
  {
    ScanEnds(w.store, l.versions, ranked, clock, p);
    var get := Run(i, clock(2 * p), clock(2 * p + 1), reply);
    var got := CacheProtocol.Next(cfg, lim, sqrt, w, get);
    var (read, entry) := ReadEntry(w.store, ranked[p].item, l.versions, clock(2 * p), clock(2 * p + 1));
    if entry.Some? {
      steps := [get] + [];
      Prepended(cfg, lim, sqrt, w, get, []);
    } else {
      var tail := DropsAndTries(cfg, lim, sqrt, got, i, l, x, ranked, clock, p, read, reply);
      steps := [get] + tail;
      Prepended(cfg, lim, sqrt, w, get, tail);
    }
  }

  /** An unusable candidate: delete it if it is there, drop its vector, go on. */
  lemma {:induction false} DropsAndTries(cfg: Settings, lim: Limits, sqrt: real -> real, w: World, i: nat, l: Lookup,
                                         x: Vector, ranked: seq<Scored<Key>>, clock: nat -> real, p: nat, read: Store,
                                         reply: Option<Vector>)
    returns (steps: seq<Step>)
    requires i < |w.tasks| && p < |ranked|
    requires || (w.tasks[i] == Dropping(l, x, ranked[p..]) && w.store == read)
             || (w.tasks[i] == PurgingCandidate(l, x, ranked[p..]) && Deleted(w.store, ranked[p].item) == read)
    ensures Alone(steps, i, reply)
    ensures var (after, q, entry) :=
              Scan(Unindexed(read, l.versions, ranked[p].item), l.versions, ranked, clock, p + 1);
            q <= |ranked| && (entry.Some? <==> q < |ranked|) &&
            Ended(Perform(cfg, lim, sqrt, w, steps), i, after, w.lastKnown, SemanticHit(ranked, q, entry, clock))
    decreases |ranked| - p, 0, if w.tasks[i].PurgingCandidate? then 1 else 0
  {
    var go := Run(i, 0.0, 0.0, reply);
    var next := CacheProtocol.Next(cfg, lim, sqrt, w, go);
    if w.tasks[i].PurgingCandidate? {
      var tail := DropsAndTries(cfg, lim, sqrt, next, i, l, x, ranked, clock, p, read, reply);
      steps := [go] + tail;
      Prepended(cfg, lim, sqrt, w, go, tail);
    } else if p + 1 == |ranked| {
      steps := [go] + [];
      Prepended(cfg, lim, sqrt, w, go, []);
    } else {
      assert ranked[p..][1..] == ranked[p + 1..];
      var tail := TryingScans(cfg, lim, sqrt, next, i, l, x, ranked, clock, p + 1, reply);
      steps := [go] + tail;
      Prepended(cfg, lim, sqrt, w, go, tail);
    }
  }

  /** From listing the index on, the protocol is `_semantic`. */
  lemma ListingMatches(cfg: Settings, lim: Limits, sqrt: real -> real, w: World, i: nat, l: Lookup, clock: nat -> real,
                       reply: Option<Vector>, m: Metrics) returns (steps: seq<Step>)
    requires i < |w.tasks| && w.tasks[i] == AfterExact(cfg, l)
    ensures Alone(steps, i, reply)
    ensures var (cache, hit) := SemanticOf(cfg, sqrt, Cache(w.store, w.lastKnown, m), l.versions, clock, reply);
            Ended(Perform(cfg, lim, sqrt, w, steps), i, cache.store, w.lastKnown, hit)
  {
    var indexed := Pairs(IndexOf(w.store, l.versions));
    var list, embed := Run(i, 0.0, 0.0, reply), Run(i, 0.0, 0.0, reply);
    var listed := CacheProtocol.Next(cfg, lim, sqrt, w, list);
    if !cfg.semantic {
      steps := [];
    } else if indexed == [] {
      steps := [list] + [];
      Prepended(cfg, lim, sqrt, w, list, []);
    } else {
      var embedded := CacheProtocol.Next(cfg, lim, sqrt, listed, embed);
      var tail := EmbeddedMatches(cfg, lim, sqrt, embedded, i, l, clock, reply, indexed);
      steps := [list] + ([embed] + tail);
      Prepended(cfg, lim, sqrt, listed, embed, tail);
      Prepended(cfg, lim, sqrt, w, list, [embed] + tail);
    }
  }

  lemma EmbeddedMatches(cfg: Settings, lim: Limits, sqrt: real -> real, w: World, i: nat, l: Lookup, clock: nat -> real,
                        reply: Option<Vector>, indexed: seq<(Key, Vector)>) returns (steps: seq<Step>)
    requires i < |w.tasks| && w.tasks[i] == AfterEmbedding(cfg, sqrt, l, indexed, reply)
    ensures Alone(steps, i, reply)
    ensures match reply
            case None => Ended(Perform(cfg, lim, sqrt, w, steps), i, w.store, w.lastKnown, None)
            case Some(x) =>
              var ranked := Ranked(sqrt, x, indexed, cfg.threshold);
              var (after, q, entry) := Scan(w.store, l.versions, ranked, clock, 0);
              q <= |ranked| && (entry.Some? <==> q < |ranked|) &&
              Ended(Perform(cfg, lim, sqrt, w, steps), i, after, w.lastKnown, SemanticHit(ranked, q, entry, clock))
  {
    steps := [];
    if reply.Some? {
      var ranked := Ranked(sqrt, reply.value, indexed, cfg.threshold);
      if ranked != [] {
        assert ranked[0..] == ranked;
        steps := TryingScans(cfg, lim, sqrt, w, i, l, reply.value, ranked, clock, 0, reply);
      }
    }
  }

  /** Nothing usable under the exact key: what is there is deleted, and the semantic half runs. */
  lemma PurgingMatches(cfg: Settings, lim: Limits, sqrt: real -> real, w: World, i: nat, l: Lookup, clock: nat -> real,
                       reply: Option<Vector>, m: Metrics, read: Store) returns (steps: seq<Step>)
    requires i < |w.tasks|
    requires || (w.tasks[i] == AfterExact(cfg, l) && w.store == read)
             || (w.tasks[i] == Purging(l)
                 && Deleted(w.store, AnswerKey(l.versions, QueryKeys.Normalize(l.query))) == read)
    ensures Alone(steps, i, reply)
    ensures var (cache, hit) := SemanticOf(cfg, sqrt, Cache(read, w.lastKnown, m), l.versions, clock, reply);
            Ended(Perform(cfg, lim, sqrt, w, steps), i, cache.store, w.lastKnown, hit)
  {
    if w.tasks[i].Purging? {
      var purge := Run(i, 0.0, 0.0, reply);
      var tail := ListingMatches(cfg, lim, sqrt, CacheProtocol.Next(cfg, lim, sqrt, w, purge), i, l, clock, reply, m);
      steps := [purge] + tail;
      Prepended(cfg, lim, sqrt, w, purge, tail);
    } else {
      steps := ListingMatches(cfg, lim, sqrt, w, i, l, clock, reply, m);
    }
  }

  /** The exact half: find the entry, or go on to the semantic half over what reading left. */
  lemma ReadingMatches(cfg: Settings, lim: Limits, sqrt: real -> real, w: World, i: nat, l: Lookup, clock: nat -> real,
                       reply: Option<Vector>, m: Metrics) returns (steps: seq<Step>)
    requires i < |w.tasks| && w.tasks[i] == Reading(l)
    ensures Alone(steps, i, reply)
    ensures var key := AnswerKey(l.versions, QueryKeys.Normalize(l.query));
            var (read, entry) := ReadEntry(w.store, key, l.versions, clock(1), clock(2));
            match entry
            case Some(e) =>
              Ended(Perform(cfg, lim, sqrt, w, steps), i, read, w.lastKnown,
                    Some(Hit(e, Exact, key, e.AgeSeconds(clock(3)), 1.0)))
            case None =>
              var (cache, hit) := SemanticOf(cfg, sqrt, Cache(read, w.lastKnown, m), l.versions, Later(clock, 4),
                                             reply);
              Ended(Perform(cfg, lim, sqrt, w, steps), i, cache.store, w.lastKnown, hit)
  {
    var get := Run(i, clock(1), clock(2), reply);
    var got := CacheProtocol.Next(cfg, lim, sqrt, w, get);
    var (read, entry) :=
      ReadEntry(w.store, AnswerKey(l.versions, QueryKeys.Normalize(l.query)), l.versions, clock(1), clock(2));
    var tail: seq<Step> := [];
    if entry == None {
      tail := PurgingMatches(cfg, lim, sqrt, got, i, l, Later(clock, 4), reply, m, read);
    }
    steps := [get] + tail;
    Prepended(cfg, lim, sqrt, w, get, tail);
  }

  /** From any state of the world, some steps of one call alone, with the reply the
      embedding service gives it, leave the store and the version as `lookup` leaves
      them, and end in the hit it returns (its age apart, which the protocol reads at
      another moment). */
  lemma LookupAlone(cfg: Settings, lim: Limits, sqrt: real -> real, w: World, i: nat, query: string, clock: nat -> real,
                    reply: Option<Vector>, m: Metrics) returns (steps: seq<Step>)
    requires i < |w.tasks| && w.tasks[i] == Asking(query) && cfg.enabled && QueryKeys.Normalize(query) != ""
    ensures Alone(steps, i, reply)
    ensures var (cache, hit) := LookupOf(cfg, sqrt, Cache(w.store, w.lastKnown, m), query, clock, reply);
            Ended(Perform(cfg, lim, sqrt, w, steps), i, cache.store, cache.lastKnown, hit)
  {
    var resolve := Run(i, clock(0), 0.0, reply);
    var resolved := CacheProtocol.Next(cfg, lim, sqrt, w, resolve);
    var tail := ReadingMatches(cfg, lim, sqrt, resolved, i, resolved.tasks[i].l, clock, reply, m);
    steps := [resolve] + tail;
    Prepended(cfg, lim, sqrt, w, resolve, tail);
  }

  /** Task `i` of `w` is a finished store, and the shared state is the gateway's. */
  ghost predicate Settled(w: World, i: nat, store: Store, lastKnown: Token) {
    w.store == store && w.lastKnown == lastKnown && i < |w.tasks| && w.tasks[i].Finished?
  }

  lemma IndexingMatches(cfg: Settings, lim: Limits, sqrt: real -> real, w: World, i: nat, d: Deposit,
                        reply: Option<Vector>)
    returns (steps: seq<Step>)
    requires i < |w.tasks| && w.tasks[i] == if d.embedding != [] then Indexing(d) else Finished
    ensures Alone(steps, i, reply)
    ensures Settled(Perform(cfg, lim, sqrt, w, steps), i,
                    if d.embedding != [] then Indexed(lim, w.store, d.versions, KeyFor(d), d.embedding)
                    else w.store,
                    w.lastKnown)
  {
    var index := Run(i, 0.0, 0.0, reply);
    steps := [];
    if d.embedding != [] {
      steps := [index] + [];
      Prepended(cfg, lim, sqrt, w, index, []);
    }
  }

  lemma KeepingMatches(cfg: Settings, lim: Limits, sqrt: real -> real, w: World, i: nat, d: Deposit, now: real,
                       reply: Option<Vector>)
    returns (steps: seq<Step>)
    requires i < |w.tasks| && w.tasks[i] == Writing(d)
    ensures Alone(steps, i, reply)
    ensures Settled(Perform(cfg, lim, sqrt, w, steps), i, Kept(lim, w.store, EntryFor(cfg, d), cfg.ttl, now),
                    w.lastKnown)
  {
    var write := Run(i, now, 0.0, reply);
    var written := CacheProtocol.Next(cfg, lim, sqrt, w, write);
    var tail := IndexingMatches(cfg, lim, sqrt, written, i, d, reply);
    steps := [write] + tail;
    Prepended(cfg, lim, sqrt, w, write, tail);
  }

  /** The deposit a store makes once it has resolved its versions and embedded the question. */
  function DepositOf(cfg: Settings, t: Task, at: real, reply: Option<Vector>): Deposit
    requires t.Vectorising? && (cfg.semantic ==> reply.Some?)
  {
    var embedding := if cfg.semantic then reply.value else [];
    Deposit(t.query, t.answer, t.metadata, t.versions, embedding, at, t.epoch, t.offered)
  }

  lemma VectorisingMatches(cfg: Settings, lim: Limits, sqrt: real -> real, w: World, i: nat, at: real,
                           reply: Option<Vector>, now: real)
    returns (steps: seq<Step>)
    requires i < |w.tasks| && w.tasks[i].Vectorising?
    ensures Alone(steps, i, reply)
    ensures cfg.semantic && reply == None ==> Settled(Perform(cfg, lim, sqrt, w, steps), i, w.store, w.lastKnown)
    ensures (cfg.semantic ==> reply.Some?) ==>
              Settled(Perform(cfg, lim, sqrt, w, steps), i,
                      Kept(lim, w.store, EntryFor(cfg, DepositOf(cfg, w.tasks[i], at, reply)), cfg.ttl, now),
                      w.lastKnown)
  {
    var embed := Run(i, 0.0, at, reply);
    var embedded := CacheProtocol.Next(cfg, lim, sqrt, w, embed);
    var tail: seq<Step> := [];
    if cfg.semantic ==> reply.Some? {
      tail := KeepingMatches(cfg, lim, sqrt, embedded, i, DepositOf(cfg, w.tasks[i], at, reply), now, reply);
    }
    steps := [embed] + tail;
    Prepended(cfg, lim, sqrt, w, embed, tail);
  }

  /** The same for `store`, once the gate has let the answer through. */
  lemma StoreAlone(cfg: Settings, lim: Limits, sqrt: real -> real, w: World, i: nat, query: string, answer: string,
                   metadata: G.Metadata, clock: nat -> real, reply: Option<Vector>, m: Metrics)
    returns (steps: seq<Step>)
    requires i < |w.tasks| && w.tasks[i].Offering?
    requires w.tasks[i].query == query && w.tasks[i].answer == answer && w.tasks[i].metadata == metadata
    ensures Alone(steps, i, reply)
    ensures var normalized := QueryKeys.Normalize(query);
            var cache := AdmittedOf(cfg, lim, Cache(w.store, w.lastKnown, m), query, normalized, answer, metadata,
                                    clock, reply).0;
            Settled(Perform(cfg, lim, sqrt, w, steps), i, cache.store, cache.lastKnown)
  {
    var resolve := Run(i, clock(0), 0.0, reply);
    var resolved := CacheProtocol.Next(cfg, lim, sqrt, w, resolve);
    var tail := VectorisingMatches(cfg, lim, sqrt, resolved, i, clock(1), reply, clock(2));
    steps := [resolve] + tail;
    Prepended(cfg, lim, sqrt, w, resolve, tail);
  }
}
