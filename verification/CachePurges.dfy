/** What self-cleaning may cost when calls are interleaved. A lookup deletes what
    it found unusable in a section of its own, after the one that read it, and a
    store may write between the two.
 */
module CachePurges {
  import opened Wrappers
  import opened Vectors
  import opened CacheRecords
  import opened CacheBackend
  import opened Gateway
  import opened CacheProtocol
  import opened CacheHistory
  import OrderedDict
  import QueryKeys
  import G = AgentGraph
  import Lru = LruStore

  /** The task has read an unusable payload and deletes next. */
  predicate Purges(t: Task) {
    t.Purging? || (t.PurgingCandidate? && t.ranked != [])
  }

  /** The key a task reads, or deletes. */
  function KeyOf(t: Task): Key
    requires t.Reading? || t.Purging? || ((t.Trying? || t.PurgingCandidate?) && t.ranked != [])
  {
    if t.Reading? || t.Purging? then AnswerKey(t.l.versions, QueryKeys.Normalize(t.l.query)) else t.ranked[0].item
  }

  /** Step `n` writes an answer under `key`. */
  ghost predicate Writes(cfg: Settings, lim: Limits, sqrt: real -> real, steps: seq<Step>, n: nat, key: Key) {
    n < |steps| && Rewrites(At(cfg, lim, sqrt, steps, n), steps[n], key)
  }

  predicate Rewrites(w: World, step: Step, key: Key) {
    step.Run? && step.i < |w.tasks| && w.tasks[step.i].Writing? && KeyFor(w.tasks[step.i].d) == key
  }

  // --------------------------------------------- only a write makes it usable

  /** `after` has at `key` what `before` had, or nothing. */
  ghost predicate NothingNew(before: Store, after: Store, key: Key) {
    key in after.entries.items ==>
      key in before.entries.items && after.entries.items[key] == before.entries.items[key]
  }

  lemma StillUnusable(before: Store, after: Store, key: Key, versions: Versions, now: real)
    requires NothingNew(before, after, key) && !Usable(before, key, versions, now)
    ensures !Usable(after, key, versions, now)
  {
  }

  lemma FetchedNothingNew(st: Store, k: Key, now: real, key: Key)
    requires OrderedDict.Valid(st.entries)
    ensures NothingNew(st, Fetched(st, k, now), key)
  {
    Lru.ReadEffect(st.entries, k, now);
  }

  lemma PutNothingNew(lim: Limits, st: Store, k: Key, payload: Payload, ttl: real, now: real, key: Key)
    requires OrderedDict.Valid(st.entries) && k != key
    ensures NothingNew(st, Put(lim, st, k, payload, ttl, now), key)
  {
    Lru.WriteEffect(st.entries, lim.maxEntries, k, Lru.Slot(payload, Deadline(ttl, now)));
  }

  lemma RunNothingNew(cfg: Settings, lim: Limits, st: Store, t: Task, now: real, key: Key)
    requires OrderedDict.Valid(st.entries) && (t.Writing? ==> KeyFor(t.d) != key)
    ensures NothingNew(st, NextStore(cfg, lim, st, t, now), key)
  {
    EntriesAfter(cfg, lim, st, t, now);
    forall k ensures NothingNew(st, Fetched(st, k, now), key) {
      FetchedNothingNew(st, k, now, key);
    }
    if t.Writing? {
      PutNothingNew(lim, st, KeyFor(t.d), Answer(EntryFor(cfg, t.d)), cfg.ttl, now, key);
    }
  }

  lemma GarbledUnusable(lim: Limits, st: Store, key: Key, text: string, ttl: real, now: real, versions: Versions,
                        at: real)
    requires OrderedDict.Valid(st.entries)
    ensures !Usable(Put(lim, st, key, Unreadable(text), ttl, now), key, versions, at)
  {
    Lru.WriteEffect(st.entries, lim.maxEntries, key, Lru.Slot(Unreadable(text), Deadline(ttl, now)));
  }

  /** No step but the write of an answer under `key` makes `key` usable. */
  lemma NextStillUnusable(cfg: Settings, lim: Limits, sqrt: real -> real, w: World, step: Step, key: Key,
                          versions: Versions, now: real)
    requires OrderedDict.Valid(w.store.entries) && key.AnswerKey? && !Rewrites(w, step, key)
    requires !Usable(w.store, key, versions, now)
    ensures !Usable(CacheProtocol.Next(cfg, lim, sqrt, w, step).store, key, versions, now)
  {
    var next := CacheProtocol.Next(cfg, lim, sqrt, w, step).store;
    if step.Garble? && key == AnswerKey(step.versions, step.normalized) {
      GarbledUnusable(lim, w.store, key, step.text, step.ttl, step.now, versions, now);
    } else {
      match step {
        case Run(i, atGet, _, _) =>
          if i < |w.tasks| {
            RunNothingNew(cfg, lim, w.store, w.tasks[i], atGet, key);
          }
        case BumpRead(at) => FetchedNothingNew(w.store, CounterKey, at, key);
        case BumpWrite(at) =>
          if w.bumping.Some? {
            PutNothingNew(lim, w.store, CounterKey, Counter(KnowledgeBase.Next(w.bumping.value)), 0.0, at, key);
          }
        case Garble(v, normalized, text, ttl, at) =>
          PutNothingNew(lim, w.store, AnswerKey(v, normalized), Unreadable(text), ttl, at, key);
        case _ =>
      }
      StillUnusable(w.store, next, key, versions, now);
    }
  }

  /** The world after step `n`. */
  lemma AtNext(cfg: Settings, lim: Limits, sqrt: real -> real, steps: seq<Step>, n: nat)
    requires n < |steps|
    ensures At(cfg, lim, sqrt, steps, n + 1)
            == CacheProtocol.Next(cfg, lim, sqrt, At(cfg, lim, sqrt, steps, n), steps[n])
    ensures Inv(cfg, sqrt, At(cfg, lim, sqrt, steps, n))
  {
    assert steps[..n + 1] == steps[..n] + [steps[n]];
    LastWorld(cfg, lim, sqrt, steps[..n], steps[n]);
    AlwaysInv(cfg, lim, sqrt, steps[..n]);
  }

  /** Where a key becomes usable. */
  lemma {:induction false} BecomesUsable(stores: seq<Store>, n: nat, m: nat, key: Key, versions: Versions, now: real)
    returns (p: nat)
    requires n <= m < |stores|
    requires !Usable(stores[n], key, versions, now) && Usable(stores[m], key, versions, now)
    ensures n <= p < m && !Usable(stores[p], key, versions, now) && Usable(stores[p + 1], key, versions, now)
    decreases m
  {
    if Usable(stores[m - 1], key, versions, now) {
      p := BecomesUsable(stores, n, m - 1, key, versions, now);
    } else {
      p := m - 1;
    }
  }

  lemma OnlyWritesHelp(cfg: Settings, lim: Limits, sqrt: real -> real, steps: seq<Step>, p: nat, key: Key,
                       versions: Versions, now: real)
    requires p < |steps| && key.AnswerKey?
    requires !Usable(At(cfg, lim, sqrt, steps, p).store, key, versions, now)
    requires Usable(At(cfg, lim, sqrt, steps, p + 1).store, key, versions, now)
    ensures Writes(cfg, lim, sqrt, steps, p, key)
  {
    AtNext(cfg, lim, sqrt, steps, p);
    if !Rewrites(At(cfg, lim, sqrt, steps, p), steps[p], key) {
      NextStillUnusable(cfg, lim, sqrt, At(cfg, lim, sqrt, steps, p), steps[p], key, versions, now);
    }
  }

  ghost function Stores(cfg: Settings, lim: Limits, sqrt: real -> real, steps: seq<Step>): (stores: seq<Store>)
    ensures |stores| == |steps| + 1
    ensures forall j :: 0 <= j <= |steps| ==> stores[j] == At(cfg, lim, sqrt, steps, j).store
  {
    seq(|steps| + 1, j requires 0 <= j <= |steps| => At(cfg, lim, sqrt, steps, j).store)
  }

  /** A key that is unusable at one moment and usable at a later one was written in between. */
  lemma WrittenBetween(cfg: Settings, lim: Limits, sqrt: real -> real, steps: seq<Step>, n: nat, m: nat, key: Key,
                       versions: Versions, now: real)
    returns (p: nat)
    requires n <= m <= |steps| && key.AnswerKey?
    requires !Usable(At(cfg, lim, sqrt, steps, n).store, key, versions, now)
    requires Usable(At(cfg, lim, sqrt, steps, m).store, key, versions, now)
    ensures n <= p < m && Writes(cfg, lim, sqrt, steps, p, key)
  {
    p := BecomesUsable(Stores(cfg, lim, sqrt, steps), n, m, key, versions, now);
    OnlyWritesHelp(cfg, lim, sqrt, steps, p, key, versions, now);
  }

  // ------------------------------------------------ what the purge had read

  lemma OthersUntouched(cfg: Settings, lim: Limits, sqrt: real -> real, w: World, step: Step, i: nat)
    requires i < |CacheProtocol.Next(cfg, lim, sqrt, w, step).tasks| && !(step.Run? && step.i == i)
    ensures var t := CacheProtocol.Next(cfg, lim, sqrt, w, step).tasks[i];
            if i < |w.tasks| then t == w.tasks[i] else !Purges(t)
  {
  }

  lemma NoTaskAtFirst(cfg: Settings, lim: Limits, sqrt: real -> real, steps: seq<Step>)
    ensures At(cfg, lim, sqrt, steps, 0).tasks == []
  {
    assert steps[..0] == [];
  }

  /** The last step of a task that is about to purge: the read that found the payload. */
  lemma {:induction false} ReadBefore(cfg: Settings, lim: Limits, sqrt: real -> real, steps: seq<Step>, m: nat, i: nat)
    returns (n: nat)
    requires m <= |steps| && i < |At(cfg, lim, sqrt, steps, m).tasks|
    requires Purges(At(cfg, lim, sqrt, steps, m).tasks[i])
    ensures n < m && RunsTask(cfg, lim, sqrt, steps, n, i)
    ensures var (w, step) := (At(cfg, lim, sqrt, steps, n), steps[n]);
            NextTask(cfg, sqrt, w, w.tasks[i], step.atGet, step.atCheck, step.reply)
            == At(cfg, lim, sqrt, steps, m).tasks[i]
    decreases m
  {
    NoTaskAtFirst(cfg, lim, sqrt, steps);
    AtNext(cfg, lim, sqrt, steps, m - 1);
    var w := At(cfg, lim, sqrt, steps, m - 1);
    if RunsTask(cfg, lim, sqrt, steps, m - 1, i) {
      n := m - 1;
    } else {
      OthersUntouched(cfg, lim, sqrt, w, steps[m - 1], i);
      n := ReadBefore(cfg, lim, sqrt, steps, m - 1, i);
    }
  }

  /** A task goes on to purge only from a read of the same key that found it unusable. */
  lemma RefusedIsUnusable(cfg: Settings, sqrt: real -> real, w: World, t: Task, atGet: real, atCheck: real,
                          reply: Option<Vector>, now: real)
    requires Purges(NextTask(cfg, sqrt, w, t, atGet, atCheck, reply))
    ensures t.Reading? || (t.Trying? && t.ranked != [])
    ensures var next := NextTask(cfg, sqrt, w, t, atGet, atCheck, reply);
            && KeyOf(next) == KeyOf(t) && next.l == t.l
            && (now >= atCheck ==> !Usable(w.store, KeyOf(t), t.l.versions, now))
  {
    if t.Reading? {
      var key := KeyOf(t);
      GetRefused(w.store, t.l, key, Exact, 1.0, [], atGet, atCheck, AfterExact(cfg, t.l), Purging(t.l), now);
    } else if t.Trying? && t.ranked != [] {
      GetRefused(w.store, t.l, t.ranked[0].item, Semantic, t.ranked[0].score, t.x, atGet, atCheck,
                 Dropping(t.l, t.x, t.ranked), PurgingCandidate(t.l, t.x, t.ranked), now);
    }
  }

  /** A `get` that goes on to purge found a payload that is unusable from then on. */
  lemma GetRefused(st: Store, l: Lookup, key: Key, kind: Kind, similarity: real, x: Vector, atGet: real, atCheck: real,
                   absent: Task, unusable: Task, now: real)
    requires !Purges(absent)
    requires Purges(AfterGet(st, l, key, kind, similarity, x, atGet, atCheck, absent, unusable))
    ensures AfterGet(st, l, key, kind, similarity, x, atGet, atCheck, absent, unusable) == unusable
    ensures now >= atCheck ==> !Usable(st, key, l.versions, now)
  {
  }

  lemma PurgedIsAnswer(cfg: Settings, sqrt: real -> real, log: set<Deposit>, bumps: nat, t: Task)
    requires TaskOk(cfg, sqrt, log, bumps, t) && Purges(t)
    ensures KeyOf(t).AnswerKey?
  {
    if t.PurgingCandidate? {
      assert ScoreOk(cfg, sqrt, log, t.l.versions, t.x, t.ranked[0]);
    }
  }

  /** In every run, a lookup that deletes read the same key before, at step `n`,
      and found it unusable. What it deletes could answer a lookup under its
      versions only if a store wrote the key between that read and the deletion. */
  lemma PurgesOnlyTheUnusable(cfg: Settings, lim: Limits, sqrt: real -> real, steps: seq<Step>, m: nat, i: nat,
                              now: real)
    returns (n: nat)
    requires RunsTask(cfg, lim, sqrt, steps, m, i) && Purges(At(cfg, lim, sqrt, steps, m).tasks[i])
    ensures n < m && RunsTask(cfg, lim, sqrt, steps, n, i)
    ensures var (t, key) := (At(cfg, lim, sqrt, steps, n).tasks[i], KeyOf(At(cfg, lim, sqrt, steps, m).tasks[i]));
            && (t.Reading? || (t.Trying? && t.ranked != [])) && KeyOf(t) == key
            && (now >= steps[n].atCheck ==> !Usable(At(cfg, lim, sqrt, steps, n).store, key, t.l.versions, now))
            && (now >= steps[n].atCheck && Usable(At(cfg, lim, sqrt, steps, m).store, key, t.l.versions, now) ==>
                  exists p :: n < p < m && Writes(cfg, lim, sqrt, steps, p, key))
  {
    n := ReadBefore(cfg, lim, sqrt, steps, m, i);
    var (w, step) := (At(cfg, lim, sqrt, steps, n), steps[n]);
    var purge := At(cfg, lim, sqrt, steps, m).tasks[i];
    RefusedIsUnusable(cfg, sqrt, w, w.tasks[i], step.atGet, step.atCheck, step.reply, now);
    AtNext(cfg, lim, sqrt, steps, m);
    PurgedIsAnswer(cfg, sqrt, At(cfg, lim, sqrt, steps, m).log, At(cfg, lim, sqrt, steps, m).bumps, purge);
    if now >= step.atCheck && Usable(At(cfg, lim, sqrt, steps, m).store, KeyOf(purge), purge.l.versions, now) {
      var p := WrittenBetween(cfg, lim, sqrt, steps, n, m, KeyOf(purge), purge.l.versions, now);
      assert p != n;
    }
  }

  // --------------------------------------------------- and what it may cost

  /** The versions before any bump. */
  function FirstVersions(cfg: Settings): Versions {
    Versions(Number(0), cfg.model, cfg.prompts)
  }

  /** A lookup of `query` under the first versions, about to delete. */
  function PurgeOf(cfg: Settings, query: string): Task {
    Purging(Lookup(query, FirstVersions(cfg), 0))
  }

  /** Under the key of `query` lies something that does not parse and never expires. */
  ghost predicate Spoilt(cfg: Settings, st: Store, query: string) {
    var key := AnswerKey(FirstVersions(cfg), QueryKeys.Normalize(query));
    key in st.entries.items && st.entries.items[key] == Lru.Slot(Unreadable(""), None)
  }

  lemma Spoils(cfg: Settings, lim: Limits, sqrt: real -> real, query: string)
    requires lim.maxEntries > 0
    ensures var garble := Garble(FirstVersions(cfg), QueryKeys.Normalize(query), "", 0.0, 0.0);
            var next := CacheProtocol.Next(cfg, lim, sqrt, START, garble);
            next == START.(store := next.store) && Spoilt(cfg, next.store, query)
  {
    var key := AnswerKey(FirstVersions(cfg), QueryKeys.Normalize(query));
    Lru.WrittenStays(START.store.entries, lim.maxEntries, key, Lru.Slot(Unreadable(""), None));
  }

  lemma AsksSpoilt(cfg: Settings, lim: Limits, sqrt: real -> real, w: World, query: string)
    requires cfg.enabled && QueryKeys.Normalize(query) != ""
    requires w.tasks == [] && w.bumps == 0 && Spoilt(cfg, w.store, query)
    ensures var next := CacheProtocol.Next(cfg, lim, sqrt, w, Ask(query));
            next.tasks == [Asking(query)] && next.bumps == 0 && Spoilt(cfg, next.store, query)
  {
    assert w.tasks + [Asking(query)] == [Asking(query)];
  }

  lemma ResolvesSpoilt(cfg: Settings, lim: Limits, sqrt: real -> real, w: World, query: string)
    requires Inv(cfg, sqrt, w) && w.tasks == [Asking(query)] && w.bumps == 0 && Spoilt(cfg, w.store, query)
    ensures var next := CacheProtocol.Next(cfg, lim, sqrt, w, Run(0, 0.0, 0.0, None));
            && next.tasks == [Reading(Lookup(query, FirstVersions(cfg), 0))] && next.bumps == 0
            && Spoilt(cfg, next.store, query)
  {
    ResolvesToBumps(cfg, sqrt, w, 0.0);
    StaysThere(w.store, AnswerKey(FirstVersions(cfg), QueryKeys.Normalize(query)));
  }

  lemma ReadsSpoilt(cfg: Settings, lim: Limits, sqrt: real -> real, w: World, query: string)
    requires w.tasks == [Reading(Lookup(query, FirstVersions(cfg), 0))] && w.bumps == 0 && Spoilt(cfg, w.store, query)
    ensures var next := CacheProtocol.Next(cfg, lim, sqrt, w, Run(0, 0.0, 0.0, None));
            next.tasks == [PurgeOf(cfg, query)] && next.bumps == 0
  {
  }

  /** A lookup of `query` has read something unreadable and is about to delete it. */
  lemma AboutToPurge(cfg: Settings, lim: Limits, sqrt: real -> real, query: string) returns (steps: seq<Step>)
    requires cfg.enabled && QueryKeys.Normalize(query) != "" && lim.maxEntries > 0
    ensures var w := Reach(cfg, lim, sqrt, steps); w.tasks == [PurgeOf(cfg, query)] && w.bumps == 0
  {
    var garble, run := Garble(FirstVersions(cfg), QueryKeys.Normalize(query), "", 0.0, 0.0), Run(0, 0.0, 0.0, None);
    var s1 := [] + [garble];
    var s2 := s1 + [Ask(query)];
    var s3 := s2 + [run];
    steps := s3 + [run];
    var w1 := Continued(cfg, lim, sqrt, [], garble);
    Spoils(cfg, lim, sqrt, query);
    var w2 := Continued(cfg, lim, sqrt, s1, Ask(query));
    AsksSpoilt(cfg, lim, sqrt, w1, query);
    var w3 := Continued(cfg, lim, sqrt, s2, run);
    AlwaysInv(cfg, lim, sqrt, s2);
    ResolvesSpoilt(cfg, lim, sqrt, w2, query);
    var w4 := Continued(cfg, lim, sqrt, s3, run);
    ReadsSpoilt(cfg, lim, sqrt, w3, query);
  }

  /** What the store that comes in between deposits. */
  function Between(cfg: Settings, query: string, answer: string, metadata: G.Metadata): Deposit {
    Deposit(query, answer, metadata, FirstVersions(cfg), [], 0.0, 0, 0)
  }

  lemma OffersBetween(cfg: Settings, lim: Limits, sqrt: real -> real, w: World, t: Task, query: string,
                      answer: string, metadata: G.Metadata)
    requires cfg.enabled && Admitted(cfg, query, answer, metadata) && w.tasks == [t] && w.bumps == 0
    ensures var next := CacheProtocol.Next(cfg, lim, sqrt, w, Offer(query, answer, metadata));
            next.tasks == [t, Offering(query, answer, metadata, 0)] && next.bumps == 0
  {
  }

  lemma ResolvesBetween(cfg: Settings, lim: Limits, sqrt: real -> real, w: World, t: Task, query: string,
                        answer: string, metadata: G.Metadata)
    requires Inv(cfg, sqrt, w) && w.tasks == [t, Offering(query, answer, metadata, 0)] && w.bumps == 0
    ensures var next := CacheProtocol.Next(cfg, lim, sqrt, w, Run(1, 0.0, 0.0, Some([])));
            next.tasks == [t, Vectorising(query, answer, metadata, FirstVersions(cfg), 0, 0)] && next.bumps == 0
  {
    ResolvesToBumps(cfg, sqrt, w, 0.0);
  }

  lemma VectorisesBetween(cfg: Settings, lim: Limits, sqrt: real -> real, w: World, t: Task, query: string,
                          answer: string, metadata: G.Metadata)
    requires w.tasks == [t, Vectorising(query, answer, metadata, FirstVersions(cfg), 0, 0)]
    ensures var next := CacheProtocol.Next(cfg, lim, sqrt, w, Run(1, 0.0, 0.0, Some([])));
            next.tasks == [t, Writing(Between(cfg, query, answer, metadata))]
  {
  }

  lemma WritesBetween(cfg: Settings, lim: Limits, sqrt: real -> real, w: World, t: Task, d: Deposit)
    requires OrderedDict.Valid(w.store.entries) && cfg.ttl > 0.0 && lim.maxEntries > 0
    requires w.tasks == [t, Writing(d)]
    ensures var next := CacheProtocol.Next(cfg, lim, sqrt, w, Run(1, 0.0, 0.0, Some([])));
            |next.tasks| == 2 && next.tasks[0] == t && Stored(cfg, next, d)
  {
    PutIsThere(lim, w.store, KeyFor(d), Answer(EntryFor(cfg, d)), cfg.ttl);
  }

  lemma PurgesStored(cfg: Settings, lim: Limits, sqrt: real -> real, w: World, query: string, d: Deposit)
    requires Inv(cfg, sqrt, w) && |w.tasks| == 2 && w.tasks[0] == PurgeOf(cfg, query) && Stored(cfg, w, d)
    requires d.query == query && d.versions == FirstVersions(cfg) && d.at == 0.0 && cfg.ttl > 0.0
    ensures Usable(w.store, KeyFor(d), d.versions, 0.0)
    ensures KeyFor(d) !in CacheProtocol.Next(cfg, lim, sqrt, w, Run(0, 0.0, 0.0, None)).store.entries.items
  {
    StoredIsUsable(cfg, w, d);
    GoneOnceDeleted(w.store, KeyFor(d));
  }

  lemma StoredIsUsable(cfg: Settings, w: World, d: Deposit)
    requires Stored(cfg, w, d) && d.at == 0.0 && cfg.ttl > 0.0
    ensures Usable(w.store, KeyFor(d), d.versions, 0.0)
  {
  }

  lemma GoneOnceDeleted(st: Store, key: Key)
    ensures key !in Deleted(st, key).entries.items
  {
  }

  /** For every answer the gate admits there is a run in which its store writes it,
      live and matching, and a lookup that had read the key before deletes it. */
  lemma LiveAnswerIsPurged(cfg: Settings, lim: Limits, sqrt: real -> real, query: string, answer: string,
                           metadata: G.Metadata)
    returns (steps: seq<Step>, d: Deposit)
    requires cfg.enabled && cfg.ttl > 0.0 && lim.maxEntries > 0 && Admitted(cfg, query, answer, metadata)
    ensures var w, purge := Reach(cfg, lim, sqrt, steps), Run(0, 0.0, 0.0, None);
            && |w.tasks| == 2 && Purges(w.tasks[0]) && KeyOf(w.tasks[0]) == KeyFor(d) && d in w.log
            && d.query == query && d.answer == answer && Stored(cfg, w, d)
            && Usable(w.store, KeyFor(d), d.versions, 0.0)
            && KeyFor(d) !in CacheProtocol.Next(cfg, lim, sqrt, w, purge).store.entries.items
  {
    d := Between(cfg, query, answer, metadata);
    var t, offer, run := PurgeOf(cfg, query), Offer(query, answer, metadata), Run(1, 0.0, 0.0, Some([]));
    var s0 := AboutToPurge(cfg, lim, sqrt, query);
    var s1 := s0 + [offer];
    var s2 := s1 + [run];
    var s3 := s2 + [run];
    steps := s3 + [run];
    var w1 := Continued(cfg, lim, sqrt, s0, offer);
    OffersBetween(cfg, lim, sqrt, Reach(cfg, lim, sqrt, s0), t, query, answer, metadata);
    var w2 := Continued(cfg, lim, sqrt, s1, run);
    AlwaysInv(cfg, lim, sqrt, s1);
    ResolvesBetween(cfg, lim, sqrt, w1, t, query, answer, metadata);
    var w3 := Continued(cfg, lim, sqrt, s2, run);
    VectorisesBetween(cfg, lim, sqrt, w2, t, query, answer, metadata);
    var w4 := Continued(cfg, lim, sqrt, s3, run);
    AlwaysInv(cfg, lim, sqrt, s3);
    WritesBetween(cfg, lim, sqrt, w3, t, d);
    AlwaysInv(cfg, lim, sqrt, steps);
    PurgesStored(cfg, lim, sqrt, w4, query, d);
  }
}
