/** Where cached answers come from, step by step: every hit is traced back
    through the run to the embedding its lookup received and to the `store` call
    that offered its answer.
 */
module CacheHistory {
  import opened Wrappers
  import opened Vectors
  import opened CacheRecords
  import opened CacheBackend
  import opened Gateway
  import opened CacheProtocol
  import OrderedDict
  import QueryKeys
  import G = AgentGraph
  import Lru = LruStore

  /** The world before step `n`. */
  ghost function At(cfg: Settings, lim: Limits, sqrt: real -> real, steps: seq<Step>, n: nat): World
    requires n <= |steps|
  {
    Reach(cfg, lim, sqrt, steps[..n])
  }

  /** Step `n` runs task `i`, which the world before it holds. */
  ghost predicate RunsTask(cfg: Settings, lim: Limits, sqrt: real -> real, steps: seq<Step>, n: nat, i: nat) {
    n < |steps| && steps[n].Run? && steps[n].i == i && i < |At(cfg, lim, sqrt, steps, n).tasks|
  }

  /** At step `n` lookup `i` received `x` as the embedding of its question. */
  ghost predicate EmbeddedAt(cfg: Settings, lim: Limits, sqrt: real -> real, steps: seq<Step>, n: nat, i: nat,
                             l: Lookup, x: Vector)
  {
    && RunsTask(cfg, lim, sqrt, steps, n, i) && steps[n].reply == Some(x)
    && var t := At(cfg, lim, sqrt, steps, n).tasks[i]; t.Embedding? && t.l == l
  }

  /** At step `n` the answer of store `i` was offered. */
  ghost predicate OfferedAt(cfg: Settings, lim: Limits, sqrt: real -> real, steps: seq<Step>, n: nat, i: nat, t: Task) {
    && n < |steps| && t.Offering? && steps[n] == Offer(t.query, t.answer, t.metadata)
    && |At(cfg, lim, sqrt, steps, n).tasks| == i
    && At(cfg, lim, sqrt, steps, n).bumps == t.offered
  }

  /** At step `n` store `i` resolved its versions. */
  ghost predicate ResolvedAt(cfg: Settings, lim: Limits, sqrt: real -> real, steps: seq<Step>, n: nat, i: nat,
                             epoch: nat)
  {
    && RunsTask(cfg, lim, sqrt, steps, n, i)
    && At(cfg, lim, sqrt, steps, n).tasks[i].Offering? && At(cfg, lim, sqrt, steps, n).bumps == epoch
  }

  /** At step `n` store `i` received the embedding it keeps, or needed none. */
  ghost predicate VectorisedAt(cfg: Settings, lim: Limits, sqrt: real -> real, steps: seq<Step>, n: nat, i: nat,
                               x: Vector)
  {
    && RunsTask(cfg, lim, sqrt, steps, n, i) && At(cfg, lim, sqrt, steps, n).tasks[i].Vectorising?
    && if cfg.semantic then steps[n].reply == Some(x) else x == []
  }

  /** Store `i` offered at step `a` and resolved at step `b`. */
  ghost predicate StoredFrom(cfg: Settings, lim: Limits, sqrt: real -> real, steps: seq<Step>, i: nat, a: nat, b: nat,
                             query: string, answer: string, metadata: G.Metadata, epoch: nat, offered: nat)
  {
    && a < b
    && OfferedAt(cfg, lim, sqrt, steps, a, i, Offering(query, answer, metadata, offered))
    && ResolvedAt(cfg, lim, sqrt, steps, b, i, epoch)
  }

  /** Deposit `d` was offered at `a`, stamped at `b` and embedded at `c`, by one store. */
  ghost predicate MadeBy(cfg: Settings, lim: Limits, sqrt: real -> real, steps: seq<Step>, i: nat, a: nat, b: nat,
                         c: nat, d: Deposit)
  {
    && StoredFrom(cfg, lim, sqrt, steps, i, a, b, d.query, d.answer, d.metadata, d.epoch, d.offered)
    && b < c && VectorisedAt(cfg, lim, sqrt, steps, c, i, d.embedding)
  }

  ghost predicate WasOffered(cfg: Settings, lim: Limits, sqrt: real -> real, steps: seq<Step>, i: nat, d: Deposit) {
    exists a, b, c :: MadeBy(cfg, lim, sqrt, steps, i, a, b, c, d)
  }

  ghost predicate WasEmbedded(cfg: Settings, lim: Limits, sqrt: real -> real, steps: seq<Step>, i: nat, l: Lookup,
                              x: Vector)
  {
    exists n :: EmbeddedAt(cfg, lim, sqrt, steps, n, i, l, x)
  }

  /** What the run so far says about the data a task carries. */
  ghost predicate Explained(cfg: Settings, lim: Limits, sqrt: real -> real, steps: seq<Step>, i: nat, t: Task) {
    match t
    case Trying(l, x, _) => WasEmbedded(cfg, lim, sqrt, steps, i, l, x)
    case PurgingCandidate(l, x, _) => WasEmbedded(cfg, lim, sqrt, steps, i, l, x)
    case Dropping(l, x, _) => WasEmbedded(cfg, lim, sqrt, steps, i, l, x)
    case Found(l, hit, x, _) => hit.kind == Semantic ==> WasEmbedded(cfg, lim, sqrt, steps, i, l, x)
    case Offering(_, _, _, _) => exists a :: OfferedAt(cfg, lim, sqrt, steps, a, i, t)
    case Vectorising(query, answer, metadata, _, epoch, offered) =>
      exists a, b :: StoredFrom(cfg, lim, sqrt, steps, i, a, b, query, answer, metadata, epoch, offered)
    case Writing(d) => WasOffered(cfg, lim, sqrt, steps, i, d)
    case Indexing(d) => WasOffered(cfg, lim, sqrt, steps, i, d)
    case _ => true
  }

  ghost predicate LogExplained(cfg: Settings, lim: Limits, sqrt: real -> real, steps: seq<Step>, log: set<Deposit>) {
    forall d :: d in log ==> exists i :: WasOffered(cfg, lim, sqrt, steps, i, d)
  }

  // ------------------------------------------------------- history is kept

  lemma AtBefore(cfg: Settings, lim: Limits, sqrt: real -> real, before: seq<Step>, step: Step, n: nat)
    requires n <= |before|
    ensures At(cfg, lim, sqrt, before + [step], n) == At(cfg, lim, sqrt, before, n)
    ensures n < |before| ==> (before + [step])[n] == before[n]
  {
    assert (before + [step])[..n] == before[..n];
  }

  lemma EmbeddedStill(cfg: Settings, lim: Limits, sqrt: real -> real, before: seq<Step>, step: Step, i: nat,
                      l: Lookup, x: Vector)
    requires WasEmbedded(cfg, lim, sqrt, before, i, l, x)
    ensures WasEmbedded(cfg, lim, sqrt, before + [step], i, l, x)
  {
    var n :| EmbeddedAt(cfg, lim, sqrt, before, n, i, l, x);
    AtBefore(cfg, lim, sqrt, before, step, n);
    assert EmbeddedAt(cfg, lim, sqrt, before + [step], n, i, l, x);
  }

  lemma StoredStill(cfg: Settings, lim: Limits, sqrt: real -> real, before: seq<Step>, step: Step, i: nat, a: nat,
                    b: nat, query: string, answer: string, metadata: G.Metadata, epoch: nat, offered: nat)
    requires StoredFrom(cfg, lim, sqrt, before, i, a, b, query, answer, metadata, epoch, offered)
    ensures StoredFrom(cfg, lim, sqrt, before + [step], i, a, b, query, answer, metadata, epoch, offered)
  {
    AtBefore(cfg, lim, sqrt, before, step, a);
    AtBefore(cfg, lim, sqrt, before, step, b);
  }

  lemma OfferedStill(cfg: Settings, lim: Limits, sqrt: real -> real, before: seq<Step>, step: Step, i: nat, d: Deposit)
    requires WasOffered(cfg, lim, sqrt, before, i, d)
    ensures WasOffered(cfg, lim, sqrt, before + [step], i, d)
  {
    var a, b, c :| MadeBy(cfg, lim, sqrt, before, i, a, b, c, d);
    StoredStill(cfg, lim, sqrt, before, step, i, a, b, d.query, d.answer, d.metadata, d.epoch, d.offered);
    AtBefore(cfg, lim, sqrt, before, step, c);
    assert MadeBy(cfg, lim, sqrt, before + [step], i, a, b, c, d);
  }

  lemma StillExplained(cfg: Settings, lim: Limits, sqrt: real -> real, before: seq<Step>, step: Step, i: nat, t: Task)
    requires Explained(cfg, lim, sqrt, before, i, t)
    ensures Explained(cfg, lim, sqrt, before + [step], i, t)
  {
    match t
    case Trying(l, x, _) => EmbeddedStill(cfg, lim, sqrt, before, step, i, l, x);
    case PurgingCandidate(l, x, _) => EmbeddedStill(cfg, lim, sqrt, before, step, i, l, x);
    case Dropping(l, x, _) => EmbeddedStill(cfg, lim, sqrt, before, step, i, l, x);
    case Found(l, hit, x, _) => if hit.kind == Semantic { EmbeddedStill(cfg, lim, sqrt, before, step, i, l, x); }
    case Offering(_, _, _, _) =>
      var a :| OfferedAt(cfg, lim, sqrt, before, a, i, t);
      AtBefore(cfg, lim, sqrt, before, step, a);
      assert OfferedAt(cfg, lim, sqrt, before + [step], a, i, t);
    case Vectorising(query, answer, metadata, _, epoch, offered) =>
      var a, b :| StoredFrom(cfg, lim, sqrt, before, i, a, b, query, answer, metadata, epoch, offered);
      StoredStill(cfg, lim, sqrt, before, step, i, a, b, query, answer, metadata, epoch, offered);
    case Writing(d) => OfferedStill(cfg, lim, sqrt, before, step, i, d);
    case Indexing(d) => OfferedStill(cfg, lim, sqrt, before, step, i, d);
    case _ =>
  }

  // --------------------------------------------------------- history grows

  /** The world before the last step of `before + [step]` is the one `before` reaches. */
  lemma LastWorld(cfg: Settings, lim: Limits, sqrt: real -> real, before: seq<Step>, step: Step)
    ensures At(cfg, lim, sqrt, before + [step], |before|) == Reach(cfg, lim, sqrt, before)
    ensures (before + [step])[|before|] == step
    ensures Reach(cfg, lim, sqrt, before + [step])
              == CacheProtocol.Next(cfg, lim, sqrt, Reach(cfg, lim, sqrt, before), step)
  {
    assert (before + [step])[..|before|] == before;
  }

  lemma EmbeddingExplains(cfg: Settings, lim: Limits, sqrt: real -> real, before: seq<Step>, step: Step, i: nat)
    requires step.Run? && step.i == i && i < |Reach(cfg, lim, sqrt, before).tasks|
    requires Reach(cfg, lim, sqrt, before).tasks[i].Embedding?
    ensures var w := Reach(cfg, lim, sqrt, before);
            Explained(cfg, lim, sqrt, before + [step], i,
                      NextTask(cfg, sqrt, w, w.tasks[i], step.atGet, step.atCheck, step.reply))
  {
    LastWorld(cfg, lim, sqrt, before, step);
    var l := Reach(cfg, lim, sqrt, before).tasks[i].l;
    if step.reply.Some? {
      assert EmbeddedAt(cfg, lim, sqrt, before + [step], |before|, i, l, step.reply.value);
    }
  }

  lemma ResolvingExplains(cfg: Settings, lim: Limits, sqrt: real -> real, before: seq<Step>, step: Step, i: nat,
                          t: Task)
    requires step.Run? && step.i == i && i < |Reach(cfg, lim, sqrt, before).tasks|
    requires t == Reach(cfg, lim, sqrt, before).tasks[i] && t.Offering? && Explained(cfg, lim, sqrt, before, i, t)
    ensures exists a :: StoredFrom(cfg, lim, sqrt, before + [step], i, a, |before|, t.query, t.answer, t.metadata,
                                   Reach(cfg, lim, sqrt, before).bumps, t.offered)
  {
    LastWorld(cfg, lim, sqrt, before, step);
    var a :| OfferedAt(cfg, lim, sqrt, before, a, i, t);
    AtBefore(cfg, lim, sqrt, before, step, a);
    assert StoredFrom(cfg, lim, sqrt, before + [step], i, a, |before|, t.query, t.answer, t.metadata,
                      Reach(cfg, lim, sqrt, before).bumps, t.offered);
  }

  lemma VectorisingExplains(cfg: Settings, lim: Limits, sqrt: real -> real, before: seq<Step>, step: Step, i: nat,
                            t: Task, d: Deposit)
    requires step.Run? && step.i == i && i < |Reach(cfg, lim, sqrt, before).tasks|
    requires t == Reach(cfg, lim, sqrt, before).tasks[i] && t.Vectorising? && Explained(cfg, lim, sqrt, before, i, t)
    requires cfg.semantic ==> step.reply.Some?
    requires d.query == t.query && d.answer == t.answer && d.metadata == t.metadata && d.epoch == t.epoch
             && d.offered == t.offered
    requires d.embedding == if cfg.semantic then step.reply.value else []
    ensures WasOffered(cfg, lim, sqrt, before + [step], i, d)
  {
    LastWorld(cfg, lim, sqrt, before, step);
    var a, b :| StoredFrom(cfg, lim, sqrt, before, i, a, b, d.query, d.answer, d.metadata, d.epoch, d.offered);
    StoredStill(cfg, lim, sqrt, before, step, i, a, b, d.query, d.answer, d.metadata, d.epoch, d.offered);
    assert MadeBy(cfg, lim, sqrt, before + [step], i, a, b, |before|, d);
  }

  /** Any other step of a task hands on the data it carried. */
  lemma HandsOn(cfg: Settings, lim: Limits, sqrt: real -> real, steps: seq<Step>, i: nat, w: World, step: Step, t: Task)
    requires step.Run? && !t.Embedding? && !t.Offering? && !t.Vectorising?
    requires Explained(cfg, lim, sqrt, steps, i, t)
    ensures Explained(cfg, lim, sqrt, steps, i, NextTask(cfg, sqrt, w, t, step.atGet, step.atCheck, step.reply))
  {
  }

  /** A step of task `i` keeps what it carries explained. */
  lemma RunExplains(cfg: Settings, lim: Limits, sqrt: real -> real, before: seq<Step>, step: Step, i: nat, w: World,
                    t: Task)
    requires step.Run? && step.i == i && w == Reach(cfg, lim, sqrt, before) && i < |w.tasks| && t == w.tasks[i]
    requires Explained(cfg, lim, sqrt, before, i, t)
    ensures Explained(cfg, lim, sqrt, before + [step], i,
                      NextTask(cfg, sqrt, w, t, step.atGet, step.atCheck, step.reply))
  {
    if t.Embedding? {
      EmbeddingExplains(cfg, lim, sqrt, before, step, i);
    } else if t.Offering? {
      ResolvingExplains(cfg, lim, sqrt, before, step, i, t);
    } else if t.Vectorising? {
      var next := NextTask(cfg, sqrt, w, t, step.atGet, step.atCheck, step.reply);
      if next.Writing? {
        VectorisingExplains(cfg, lim, sqrt, before, step, i, t, next.d);
      }
    } else {
      StillExplained(cfg, lim, sqrt, before, step, i, t);
      HandsOn(cfg, lim, sqrt, before + [step], i, w, step, t);
    }
  }

  lemma ArrivalExplains(cfg: Settings, lim: Limits, sqrt: real -> real, before: seq<Step>, step: Step)
    requires step.Offer?
    ensures var w := Reach(cfg, lim, sqrt, before);
            Explained(cfg, lim, sqrt, before + [step], |w.tasks|,
                      CacheProtocol.Next(cfg, lim, sqrt, w, step).tasks[|w.tasks|])
  {
    var w := Reach(cfg, lim, sqrt, before);
    LastWorld(cfg, lim, sqrt, before, step);
    var t := CacheProtocol.Next(cfg, lim, sqrt, w, step).tasks[|w.tasks|];
    if t.Offering? {
      assert OfferedAt(cfg, lim, sqrt, before + [step], |before|, |w.tasks|, t);
    }
  }

  lemma TaskExplained(cfg: Settings, lim: Limits, sqrt: real -> real, before: seq<Step>, step: Step, i: nat)
    requires forall j :: 0 <= j < |Reach(cfg, lim, sqrt, before).tasks| ==>
               Explained(cfg, lim, sqrt, before, j, Reach(cfg, lim, sqrt, before).tasks[j])
    requires i < |CacheProtocol.Next(cfg, lim, sqrt, Reach(cfg, lim, sqrt, before), step).tasks|
    ensures Explained(cfg, lim, sqrt, before + [step], i,
                      CacheProtocol.Next(cfg, lim, sqrt, Reach(cfg, lim, sqrt, before), step).tasks[i])
  {
    var w := Reach(cfg, lim, sqrt, before);
    if i == |w.tasks| {
      if step.Offer? {
        ArrivalExplains(cfg, lim, sqrt, before, step);
      }
    } else if step.Run? && step.i == i {
      RunExplains(cfg, lim, sqrt, before, step, i, w, w.tasks[i]);
    } else {
      StillExplained(cfg, lim, sqrt, before, step, i, w.tasks[i]);
    }
  }

  lemma LogStillExplained(cfg: Settings, lim: Limits, sqrt: real -> real, before: seq<Step>, step: Step,
                          log: set<Deposit>)
    requires LogExplained(cfg, lim, sqrt, before, log)
    ensures LogExplained(cfg, lim, sqrt, before + [step], log)
  {
    forall d | d in log ensures exists i :: WasOffered(cfg, lim, sqrt, before + [step], i, d) {
      var i :| WasOffered(cfg, lim, sqrt, before, i, d);
      OfferedStill(cfg, lim, sqrt, before, step, i, d);
    }
  }

  /** Everything the tasks and the log of `w` carry is explained by `steps`. */
  ghost predicate AllExplained(cfg: Settings, lim: Limits, sqrt: real -> real, steps: seq<Step>, w: World) {
    && (forall i :: 0 <= i < |w.tasks| ==> Explained(cfg, lim, sqrt, steps, i, w.tasks[i]))
    && LogExplained(cfg, lim, sqrt, steps, w.log)
  }

  /** What a step adds to the log was explained while its task carried it. */
  lemma LogExplainedNext(cfg: Settings, lim: Limits, sqrt: real -> real, before: seq<Step>, step: Step, w: World)
    requires AllExplained(cfg, lim, sqrt, before, w)
    ensures LogExplained(cfg, lim, sqrt, before + [step], CacheProtocol.Next(cfg, lim, sqrt, w, step).log)
  {
    LogStillExplained(cfg, lim, sqrt, before, step, w.log);
    if step.Run? && step.i < |w.tasks| && w.tasks[step.i].Writing? {
      StillExplained(cfg, lim, sqrt, before, step, step.i, w.tasks[step.i]);
    }
  }

  lemma NextExplained(cfg: Settings, lim: Limits, sqrt: real -> real, before: seq<Step>, step: Step, w: World,
                      next: World)
    requires w == Reach(cfg, lim, sqrt, before) && next == CacheProtocol.Next(cfg, lim, sqrt, w, step)
    requires AllExplained(cfg, lim, sqrt, before, w)
    ensures AllExplained(cfg, lim, sqrt, before + [step], next)
  {
    forall i | 0 <= i < |next.tasks| ensures Explained(cfg, lim, sqrt, before + [step], i, next.tasks[i]) {
      TaskExplained(cfg, lim, sqrt, before, step, i);
    }
    LogExplainedNext(cfg, lim, sqrt, before, step, w);
  }

  /** In every run, everything tasks and the log carry is explained by the steps taken. */
  lemma {:induction false} AlwaysExplained(cfg: Settings, lim: Limits, sqrt: real -> real, steps: seq<Step>)
    ensures AllExplained(cfg, lim, sqrt, steps, Reach(cfg, lim, sqrt, steps))
  {
    if steps != [] {
      var before, step := steps[..|steps| - 1], steps[|steps| - 1];
      var next := Reach(cfg, lim, sqrt, before + [step]);
      AlwaysExplained(cfg, lim, sqrt, before);
      LastWorld(cfg, lim, sqrt, before, step);
      NextExplained(cfg, lim, sqrt, before, step, Reach(cfg, lim, sqrt, before), next);
      assert steps == before + [step];
    }
  }

  // ------------------------------------------------------------- the results

  /** The similarity of a hit is the cosine with the vector of store `v`, of the hit's key and versions. */
  ghost predicate ScoredBy(cfg: Settings, sqrt: real -> real, l: Lookup, hit: Hit, x: Vector, v: Deposit) {
    && v.versions == l.versions && hit.key == KeyFor(v)
    && Similar(sqrt, x, v.embedding, cfg.threshold) && hit.similarity == Cosine(sqrt, x, v.embedding)
  }

  /** Every hit was put there by a store that an `Offer` of this run began and
      the gate admitted, under the versions the lookup resolved, and is unexpired.
      An exact hit answers the same normalised question. For a semantic hit, a
      store of this run under the same key and versions computed a vector similar
      enough to the embedding this lookup received for its own question. */
  lemma HitSoundness(cfg: Settings, lim: Limits, sqrt: real -> real, steps: seq<Step>, i: nat)
    requires i < |Reach(cfg, lim, sqrt, steps).tasks| && Reach(cfg, lim, sqrt, steps).tasks[i].Found?
    ensures var w := Reach(cfg, lim, sqrt, steps);
            var (l, hit, x, at) := (w.tasks[i].l, w.tasks[i].hit, w.tasks[i].x, w.tasks[i].at);
            && (exists d, j :: Answers(cfg, sqrt, w.log, l, hit, x, at, d) && WasOffered(cfg, lim, sqrt, steps, j, d))
            && (hit.kind == Semantic ==>
                  && WasEmbedded(cfg, lim, sqrt, steps, i, l, x)
                  && exists v, j ::
                       v in w.log && ScoredBy(cfg, sqrt, l, hit, x, v) && WasOffered(cfg, lim, sqrt, steps, j, v))
  {
    AlwaysInv(cfg, lim, sqrt, steps);
    AlwaysExplained(cfg, lim, sqrt, steps);
    var w := Reach(cfg, lim, sqrt, steps);
    var t := w.tasks[i];
    assert TaskOk(cfg, sqrt, w.log, w.bumps, t) && Explained(cfg, lim, sqrt, steps, i, t);
    var d := HitIsBacked(cfg, sqrt, w.log, w.bumps, t.l, t.hit, t.x, t.at);
    var j :| WasOffered(cfg, lim, sqrt, steps, j, d);
    if t.hit.kind == Semantic {
      var v := HitIsScored(cfg, sqrt, w.log, t.l, t.hit, t.x, t.at);
      var k :| WasOffered(cfg, lim, sqrt, steps, k, v);
    }
  }

  lemma HitIsScored(cfg: Settings, sqrt: real -> real, log: set<Deposit>, l: Lookup, hit: Hit, x: Vector, at: real)
    returns (v: Deposit)
    requires HitOk(cfg, sqrt, log, l, hit, x, at) && hit.kind == Semantic
    ensures v in log && ScoredBy(cfg, sqrt, l, hit, x, v)
  {
    v :| v in log && ScoredBy(cfg, sqrt, l, hit, x, v);
  }

  /** Where stores of one key agree on the vector - they ask the service about the
      same normalised text - the similarity a semantic hit reports is the cosine
      with the vector of the very answer it serves. */
  lemma SimilarityIsTheAnswers(cfg: Settings, lim: Limits, sqrt: real -> real, steps: seq<Step>, i: nat)
    requires i < |Reach(cfg, lim, sqrt, steps).tasks| && Reach(cfg, lim, sqrt, steps).tasks[i].Found?
    requires Reach(cfg, lim, sqrt, steps).tasks[i].hit.kind == Semantic
    requires forall d, e :: d in Reach(cfg, lim, sqrt, steps).log && e in Reach(cfg, lim, sqrt, steps).log ==>
               KeyFor(d) == KeyFor(e) ==> d.embedding == e.embedding
    ensures var (hit, x) := (Reach(cfg, lim, sqrt, steps).tasks[i].hit, Reach(cfg, lim, sqrt, steps).tasks[i].x);
            && |x| == |hit.entry.embedding|
            && hit.similarity == Cosine(sqrt, x, hit.entry.embedding) >= cfg.threshold
  {
    AlwaysInv(cfg, lim, sqrt, steps);
    var w := Reach(cfg, lim, sqrt, steps);
    var t := w.tasks[i];
    assert TaskOk(cfg, sqrt, w.log, w.bumps, t);
    var d := HitIsBacked(cfg, sqrt, w.log, w.bumps, t.l, t.hit, t.x, t.at);
    var v := HitIsScored(cfg, sqrt, w.log, t.l, t.hit, t.x, t.at);
  }

  /** Step `n` completes a bump. */
  ghost predicate Completes(cfg: Settings, lim: Limits, sqrt: real -> real, steps: seq<Step>, n: nat) {
    n < |steps| && steps[n].BumpWrite? && At(cfg, lim, sqrt, steps, n).bumping.Some?
  }

  lemma BumpsAfter(cfg: Settings, lim: Limits, sqrt: real -> real, w: World, step: Step)
    ensures var next := CacheProtocol.Next(cfg, lim, sqrt, w, step);
            next.bumps == w.bumps + if step.BumpWrite? && w.bumping.Some? then 1 else 0
  {
  }

  lemma BumpsAt(cfg: Settings, lim: Limits, sqrt: real -> real, steps: seq<Step>, n: nat)
    requires n < |steps|
    ensures At(cfg, lim, sqrt, steps, n + 1).bumps
            == At(cfg, lim, sqrt, steps, n).bumps + if Completes(cfg, lim, sqrt, steps, n) then 1 else 0
  {
    assert steps[..n + 1] == steps[..n] + [steps[n]];
    LastWorld(cfg, lim, sqrt, steps[..n], steps[n]);
    BumpsAfter(cfg, lim, sqrt, At(cfg, lim, sqrt, steps, n), steps[n]);
  }

  /** Count `n + 1` is count `n`, or one more when `rises[n]`. */
  ghost predicate Rises(counts: seq<nat>, rises: seq<bool>, n: nat)
    requires n < |rises| < |counts|
  {
    counts[n + 1] == counts[n] + if rises[n] then 1 else 0
  }

  lemma {:induction false} Level(counts: seq<nat>, rises: seq<bool>, a: nat, b: nat)
    requires a <= b <= |rises| < |counts| && forall n :: 0 <= n < |rises| ==> Rises(counts, rises, n)
    ensures counts[a] <= counts[b] && (counts[a] == counts[b] <==> forall n :: a <= n < b ==> !rises[n])
    decreases b
  {
    if a < b {
      Level(counts, rises, a, b - 1);
      assert Rises(counts, rises, b - 1);
    }
  }

  lemma BumpsBetween(cfg: Settings, lim: Limits, sqrt: real -> real, steps: seq<Step>, a: nat, b: nat)
    requires a <= b <= |steps|
    ensures At(cfg, lim, sqrt, steps, a).bumps <= At(cfg, lim, sqrt, steps, b).bumps
    ensures At(cfg, lim, sqrt, steps, a).bumps == At(cfg, lim, sqrt, steps, b).bumps
            <==> forall n :: a <= n < b ==> !Completes(cfg, lim, sqrt, steps, n)
  {
    var counts: seq<nat> := seq(|steps| + 1, n requires 0 <= n <= |steps| => At(cfg, lim, sqrt, steps, n).bumps);
    ghost var rises := seq(|steps|, n requires 0 <= n < |steps| => Completes(cfg, lim, sqrt, steps, n));
    forall n | 0 <= n < |steps| ensures Rises(counts, rises, n) {
      BumpsAt(cfg, lim, sqrt, steps, n);
    }
    Level(counts, rises, a, b);
    assert forall n :: a <= n < b ==> rises[n] == Completes(cfg, lim, sqrt, steps, n);
  }

  /** What the version protects, and what it does not. An answer served was
      stamped with the version the lookup runs under; it was ready under that
      version if and only if no bump completed between its store's offer and its
      store's resolve. */
  lemma FreshIff(cfg: Settings, lim: Limits, sqrt: real -> real, steps: seq<Step>, i: nat, d: Deposit)
    returns (j: nat, a: nat, b: nat, c: nat)
    requires i < |Reach(cfg, lim, sqrt, steps).tasks| && Reach(cfg, lim, sqrt, steps).tasks[i].Found?
    requires d in Reach(cfg, lim, sqrt, steps).log
    requires EntryFor(cfg, d) == Reach(cfg, lim, sqrt, steps).tasks[i].hit.entry
    ensures MadeBy(cfg, lim, sqrt, steps, j, a, b, c, d)
    ensures var l := Reach(cfg, lim, sqrt, steps).tasks[i].l;
            d.offered == l.epoch <==> forall n :: a <= n < b ==> !Completes(cfg, lim, sqrt, steps, n)
  {
    VersionInvalidation(cfg, lim, sqrt, steps, i, d);
    AlwaysExplained(cfg, lim, sqrt, steps);
    j :| WasOffered(cfg, lim, sqrt, steps, j, d);
    a, b, c :| MadeBy(cfg, lim, sqrt, steps, j, a, b, c, d);
    BumpsBetween(cfg, lim, sqrt, steps, a, b);
  }

  // ---------------------------------------------- an answer that was overtaken

  /** `before` and one more step. */
  lemma Continued(cfg: Settings, lim: Limits, sqrt: real -> real, before: seq<Step>, step: Step) returns (w: World)
    ensures w == Reach(cfg, lim, sqrt, before + [step])
    ensures w == CacheProtocol.Next(cfg, lim, sqrt, Reach(cfg, lim, sqrt, before), step)
  {
    LastWorld(cfg, lim, sqrt, before, step);
    w := Reach(cfg, lim, sqrt, before + [step]);
  }

  /** One store, alone in the world, that has been overtaken by one bump. */
  lemma Overtaken(cfg: Settings, lim: Limits, sqrt: real -> real, query: string, answer: string, metadata: G.Metadata)
    returns (steps: seq<Step>)
    requires cfg.enabled && Admitted(cfg, query, answer, metadata)
    ensures var w := Reach(cfg, lim, sqrt, steps);
            && w.tasks == [Offering(query, answer, metadata, 0)]
            && w.lastKnown == Number(1) && w.bumps == 1 && w.log == {}
  {
    var offer, read, write := Offer(query, answer, metadata), BumpRead(0.0), BumpWrite(0.0);
    steps := [] + [offer] + [read] + [write];
    var w1 := Continued(cfg, lim, sqrt, [], offer);
    var w2 := Continued(cfg, lim, sqrt, [] + [offer], read);
    var w3 := Continued(cfg, lim, sqrt, [] + [offer] + [read], write);
    OffersFirst(cfg, lim, sqrt, query, answer, metadata);
    AlwaysInv(cfg, lim, sqrt, [] + [offer]);
    BumpsOnce(cfg, lim, sqrt, w1);
  }

  lemma OffersFirst(cfg: Settings, lim: Limits, sqrt: real -> real, query: string, answer: string,
                    metadata: G.Metadata)
    requires cfg.enabled && Admitted(cfg, query, answer, metadata)
    ensures CacheProtocol.Next(cfg, lim, sqrt, START, Offer(query, answer, metadata))
            == START.(tasks := [Offering(query, answer, metadata, 0)])
  {
    assert START.tasks + [Offering(query, answer, metadata, 0)] == [Offering(query, answer, metadata, 0)];
  }

  lemma BumpsOnce(cfg: Settings, lim: Limits, sqrt: real -> real, w: World)
    requires Inv(cfg, sqrt, w) && w.bumping == None
    ensures var next := CacheProtocol.Next(cfg, lim, sqrt, CacheProtocol.Next(cfg, lim, sqrt, w, BumpRead(0.0)),
                                           BumpWrite(0.0));
            && next.tasks == w.tasks && next.log == w.log
            && next.bumps == w.bumps + 1 && next.lastKnown == Number(next.bumps)
  {
    ResolvesToBumps(cfg, sqrt, w, 0.0);
  }

  lemma PutIsThere(lim: Limits, st: Store, key: Key, value: Payload, ttl: real)
    requires OrderedDict.Valid(st.entries) && lim.maxEntries > 0 && ttl > 0.0
    ensures var after := Put(lim, st, key, value, ttl, 0.0);
            key in after.entries.items && after.entries.items[key] == Lru.Slot(value, Some(ttl))
  {
    Lru.WrittenStays(st.entries, lim.maxEntries, key, Lru.Slot(value, Some(ttl)));
  }

  /** The deposit an overtaken store makes: offered before the bump, stamped after it. */
  function LateDeposit(cfg: Settings, query: string, answer: string, metadata: G.Metadata): Deposit {
    Deposit(query, answer, metadata, Versions(Number(1), cfg.model, cfg.prompts), [], 0.0, 1, 0)
  }

  lemma ResolvesLate(cfg: Settings, lim: Limits, sqrt: real -> real, w: World, query: string, answer: string,
                     metadata: G.Metadata)
    requires Inv(cfg, sqrt, w) && w.bumps == 1 && w.tasks == [Offering(query, answer, metadata, 0)]
    ensures var next := CacheProtocol.Next(cfg, lim, sqrt, w, Run(0, 0.0, 0.0, Some([])));
            && next.bumps == 1 && next.log == w.log
            && next.tasks == [Vectorising(query, answer, metadata, Versions(Number(1), cfg.model, cfg.prompts), 1, 0)]
  {
    ResolvesToBumps(cfg, sqrt, w, 0.0);
  }

  lemma VectorisesLate(cfg: Settings, lim: Limits, sqrt: real -> real, w: World, query: string, answer: string,
                       metadata: G.Metadata)
    requires w.tasks == [Vectorising(query, answer, metadata, Versions(Number(1), cfg.model, cfg.prompts), 1, 0)]
    ensures var next := CacheProtocol.Next(cfg, lim, sqrt, w, Run(0, 0.0, 0.0, Some([])));
            next.bumps == w.bumps && next.log == w.log
              && next.tasks == [Writing(LateDeposit(cfg, query, answer, metadata))]
  {
  }

  /** The answer of `d` is stored and will last beyond this moment. */
  ghost predicate Stored(cfg: Settings, w: World, d: Deposit) {
    && d in w.log && KeyFor(d) in w.store.entries.items
    && w.store.entries.items[KeyFor(d)] == Lru.Slot(Answer(EntryFor(cfg, d)), Some(cfg.ttl))
  }

  lemma WritesLate(cfg: Settings, lim: Limits, sqrt: real -> real, w: World, d: Deposit)
    requires OrderedDict.Valid(w.store.entries) && cfg.ttl > 0.0 && lim.maxEntries > 0 && w.tasks == [Writing(d)]
    ensures var next := CacheProtocol.Next(cfg, lim, sqrt, w, Run(0, 0.0, 0.0, Some([])));
            next.bumps == w.bumps && |next.tasks| == 1 && Stored(cfg, next, d)
  {
    PutIsThere(lim, w.store, KeyFor(d), Answer(EntryFor(cfg, d)), cfg.ttl);
  }

  lemma AsksLate(cfg: Settings, lim: Limits, sqrt: real -> real, w: World, query: string, d: Deposit)
    requires Inv(cfg, sqrt, w) && cfg.enabled && QueryKeys.Normalize(query) != "" && Stored(cfg, w, d)
    ensures var asked := CacheProtocol.Next(cfg, lim, sqrt, w, Ask(query));
            asked.bumps == w.bumps && asked.tasks == w.tasks + [Asking(query)] && Stored(cfg, asked, d)
  {
  }

  lemma StaysThere(st: Store, key: Key)
    requires OrderedDict.Valid(st.entries) && key in st.entries.items && key.AnswerKey?
    ensures var after := Fetched(st, CounterKey, 0.0);
            key in after.entries.items && after.entries.items[key] == st.entries.items[key]
  {
    Lru.ReadLoses(st.entries, CounterKey, 0.0);
  }

  lemma LooksLate(cfg: Settings, lim: Limits, sqrt: real -> real, w: World, query: string, d: Deposit)
    requires Inv(cfg, sqrt, w) && w.bumps == 1 && |w.tasks| == 2 && w.tasks[1] == Asking(query) && Stored(cfg, w, d)
    ensures var next := CacheProtocol.Next(cfg, lim, sqrt, w, Run(1, 0.0, 0.0, None));
            && |next.tasks| == 2 && Stored(cfg, next, d)
            && next.tasks[1] == Reading(Lookup(query, Versions(Number(1), cfg.model, cfg.prompts), 1))
  {
    ResolvesToBumps(cfg, sqrt, w, 0.0);
    StaysThere(w.store, KeyFor(d));
  }

  lemma FindsLate(cfg: Settings, lim: Limits, sqrt: real -> real, w: World, l: Lookup, d: Deposit)
    requires |w.tasks| == 2 && w.tasks[1] == Reading(l) && Stored(cfg, w, d) && cfg.ttl > 0.0
    requires d.versions == l.versions && d.query == l.query && d.at == 0.0
    ensures var next := CacheProtocol.Next(cfg, lim, sqrt, w, Run(1, 0.0, 0.0, None));
            && |next.tasks| == 2 && next.log == w.log
            && next.tasks[1].Found? && next.tasks[1].l == l && next.tasks[1].hit.entry == EntryFor(cfg, d)
  {
  }

  /** For every answer the gate admits there is a run that serves it after a bump it was offered before. */
  lemma OvertakenIsServed(cfg: Settings, lim: Limits, sqrt: real -> real, query: string, answer: string,
                          metadata: G.Metadata)
    returns (steps: seq<Step>, d: Deposit)
    requires cfg.enabled && cfg.ttl > 0.0 && lim.maxEntries > 0 && Admitted(cfg, query, answer, metadata)
    ensures var w := Reach(cfg, lim, sqrt, steps);
            && |w.tasks| == 2 && w.tasks[1].Found? && d in w.log && w.tasks[1].hit.entry == EntryFor(cfg, d)
            && d.answer == answer && d.offered < w.tasks[1].l.epoch
  {
    var run, ask, look := Run(0, 0.0, 0.0, Some([])), Ask(query), Run(1, 0.0, 0.0, None);
    d := LateDeposit(cfg, query, answer, metadata);
    var s0 := Overtaken(cfg, lim, sqrt, query, answer, metadata);
    var s1, s2, s3 := s0 + [run], s0 + [run] + [run], s0 + [run] + [run] + [run];
    var s4, s5, s6 := s3 + [ask], s3 + [ask] + [look], s3 + [ask] + [look] + [look];
    steps := s6;
    AlwaysInv(cfg, lim, sqrt, s0);
    LastWorld(cfg, lim, sqrt, s0, run);
    ResolvesLate(cfg, lim, sqrt, Reach(cfg, lim, sqrt, s0), query, answer, metadata);
    LastWorld(cfg, lim, sqrt, s1, run);
    VectorisesLate(cfg, lim, sqrt, Reach(cfg, lim, sqrt, s1), query, answer, metadata);
    AlwaysInv(cfg, lim, sqrt, s2);
    LastWorld(cfg, lim, sqrt, s2, run);
    WritesLate(cfg, lim, sqrt, Reach(cfg, lim, sqrt, s2), d);
    ServedLate(cfg, lim, sqrt, s3, query, d);
  }

  lemma ServedLate(cfg: Settings, lim: Limits, sqrt: real -> real, before: seq<Step>, query: string, d: Deposit)
    requires cfg.enabled && cfg.ttl > 0.0 && QueryKeys.Normalize(query) != ""
    requires d.query == query && d.versions == Versions(Number(1), cfg.model, cfg.prompts) && d.at == 0.0
    requires var w := Reach(cfg, lim, sqrt, before); w.bumps == 1 && |w.tasks| == 1 && Stored(cfg, w, d)
    ensures var look := Run(1, 0.0, 0.0, None);
            var w := Reach(cfg, lim, sqrt, before + [Ask(query)] + [look] + [look]);
            && |w.tasks| == 2 && w.tasks[1].Found? && d in w.log && w.tasks[1].hit.entry == EntryFor(cfg, d)
            && w.tasks[1].l.epoch == 1
  {
    var look, asked := Run(1, 0.0, 0.0, None), before + [Ask(query)];
    AlwaysInv(cfg, lim, sqrt, before);
    LastWorld(cfg, lim, sqrt, before, Ask(query));
    AsksLate(cfg, lim, sqrt, Reach(cfg, lim, sqrt, before), query, d);
    AlwaysInv(cfg, lim, sqrt, asked);
    LastWorld(cfg, lim, sqrt, asked, look);
    LooksLate(cfg, lim, sqrt, Reach(cfg, lim, sqrt, asked), query, d);
    LastWorld(cfg, lim, sqrt, asked + [look], look);
    FindsLate(cfg, lim, sqrt, Reach(cfg, lim, sqrt, asked + [look]), Reach(cfg, lim, sqrt, asked + [look]).tasks[1].l,
              d);
  }
}
