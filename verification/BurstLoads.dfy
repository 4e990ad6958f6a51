/** "Concurrent misses share one load": exactly when it is so.

    The in-flight marker comes out of the table before the value goes in, and a
    caller that looks between the two finds neither. So a burst on one key can
    load twice even when nothing fails, expires or is evicted. The theorem says
    this is the only way it can.
 */
module BurstLoads {
  import opened Wrappers
  import opened OrderedDict
  import opened SingleFlight
  import Lru = LruStore
  import AsyncTtlCache

  /** The caller's loader was started. */
  ghost predicate Loaded(c: Caller) {
    c.pc.Loading? || c.own.Some?
  }

  ghost predicate AtMostOneLoad(s: State) {
    forall t, u :: 0 <= t < |s.callers| && 0 <= u < |s.callers| && Loaded(s.callers[t]) && Loaded(s.callers[u]) ==>
      t == u
  }

  /** The marker is out and the value is not in. */
  predicate InGap(pc: Pc) {
    pc.Popped? || pc.Storing?
  }

  ghost predicate GapOpen(s: State) {
    exists u :: 0 <= u < |s.callers| && InGap(s.callers[u].pc)
  }

  /** Nobody else uses the cache, no loader fails, and the burst is over before anything it stored expires. */
  ghost predicate Calm(cfg: Config, step: Step, start: real) {
    && step.By?
    && match step.act {
      case Look(now) => start <= now < start + cfg.ttl
      case Store(now) => start <= now
      case Finish(out) => out.Loads?
      case _ => true
    }
  }

  /** No caller looks while the gap is open, anywhere in the run. */
  ghost predicate NeverLooksInGap(cfg: Config, s: State, steps: seq<Step>)
    requires Legal(cfg, s, steps)
    decreases |steps|
  {
    steps == [] ||
    (&& !(steps[0].By? && steps[0].act.Look? && GapOpen(s))
     && NeverLooksInGap(cfg, Next(cfg, s, steps[0]), steps[1..]))
  }

  /** The table holds at most `k`, until `end` at least. */
  ghost predicate OnlyHolds(d: Lru.Table<Key, Vector>, k: Key, end: real) {
    && Valid(d)
    && Size(d) <= 1
    && forall x :: x in d.items ==> x == k && d.items[x].deadline.Some? && d.items[x].deadline.value >= end
  }

  ghost predicate Burst(cfg: Config, s: State, k: Key, start: real) {
    && cfg.max > 0
    && Inv(s)
    && OnlyHolds(s.cache.entries, k, start + cfg.ttl)
    && forall t :: 0 <= t < |s.callers| ==>
         s.callers[t].key == k && (s.callers[t].own.Some? ==> s.callers[t].own.value.Loads?)
  }

  ghost predicate HasReturned(s: State, u: nat) {
    u < |s.callers| && s.callers[u].own.Some? && s.callers[u].pc.Returned?
  }

  /** While there has been one load, the value is in exactly when its caller has returned. */
  ghost predicate Settled(s: State, k: Key) {
    && (k in s.cache.entries.items ==> exists u :: HasReturned(s, u))
    && (forall u :: HasReturned(s, u) ==> k in s.cache.entries.items)
  }

  lemma CalmRead(d: Lru.Table<Key, Vector>, k: Key, now: real, end: real)
    requires OnlyHolds(d, k, end) && now < end
    ensures OnlyHolds(Lru.Read(d, k, now), k, end) && Lru.Read(d, k, now).items == d.items
    ensures Lru.Peek(d, k, now).Some? <==> k in d.items
  {
    if k in d.items {
      PutLastValid(d, k, d.items[k]);
    }
  }

  lemma CalmWrite(d: Lru.Table<Key, Vector>, max: nat, k: Key, v: Vector, deadline: real, end: real)
    requires OnlyHolds(d, k, end) && max > 0 && deadline >= end
    ensures OnlyHolds(Lru.Write(d, max, k, Lru.Slot(v, Some(deadline))), k, end)
    ensures k in Lru.Write(d, max, k, Lru.Slot(v, Some(deadline))).items
  {
    var slot := Lru.Slot(v, Some(deadline));
    assert Size(d) == 1 ==> d.order[0] in d.items;
    PutLastValid(d, k, slot);
    assert Trim(PutLast(d, k, slot), max) == PutLast(d, k, slot);
  }

  lemma CalmEntries(cfg: Config, s: State, step: Step, k: Key, start: real)
    requires Burst(cfg, s, k, start) && Enabled(cfg, s, step) && Calm(cfg, step, start)
    ensures OnlyHolds(Next(cfg, s, step).cache.entries, k, start + cfg.ttl)
    ensures k in Next(cfg, s, step).cache.entries.items <==> k in s.cache.entries.items || step.act.Store?
  {
    match step.act
    case Look(now) => CalmRead(s.cache.entries, k, now, start + cfg.ttl);
    case Store(now) =>
      CalmWrite(s.cache.entries, cfg.max, k, s.callers[step.who].pc.value, now + cfg.ttl, start + cfg.ttl);
    case _ =>
  }

  lemma BurstStep(cfg: Config, s: State, step: Step, k: Key, start: real)
    requires Burst(cfg, s, k, start) && Enabled(cfg, s, step) && Calm(cfg, step, start)
    ensures Burst(cfg, Next(cfg, s, step), k, start)
  {
    NextKeepsInv(cfg, s, step);
    CalmEntries(cfg, s, step, k, start);
  }

  lemma LoadsAccumulate(cfg: Config, s: State, step: Step)
    requires Inv(s) && Enabled(cfg, s, step) && step.By?
    ensures forall u :: 0 <= u < |s.callers| && Loaded(s.callers[u]) ==> Loaded(Next(cfg, s, step).callers[u])
    ensures !AtMostOneLoad(s) ==> !AtMostOneLoad(Next(cfg, s, step))
  {
    assert CallerOk(s, step.who);
    var s' := Next(cfg, s, step);
    if !AtMostOneLoad(s) {
      var a, b :| 0 <= a < |s.callers| && 0 <= b < |s.callers| && Loaded(s.callers[a]) && Loaded(s.callers[b])
        && a != b;
      assert Loaded(s'.callers[a]) && Loaded(s'.callers[b]);
    }
  }

  /** A look in the gap finds nothing and loads again. */
  lemma LookInGapLoads(cfg: Config, s: State, step: Step, k: Key, start: real)
    requires Burst(cfg, s, k, start) && Settled(s, k) && AtMostOneLoad(s)
    requires Enabled(cfg, s, step) && Calm(cfg, step, start) && step.act.Look? && GapOpen(s)
    ensures !AtMostOneLoad(Next(cfg, s, step))
  {
    var u :| 0 <= u < |s.callers| && InGap(s.callers[u].pc);
    var t, s' := step.who, Next(cfg, s, step);
    assert CallerOk(s, u) && CallerOk(s, t);
    assert Loaded(s.callers[u]);
    forall v | 0 <= v < |s.callers| ensures !Owns(s.callers[v].pc) {
      assert CallerOk(s, v);
    }
    assert forall v :: !HasReturned(s, v);
    CalmRead(s.cache.entries, k, step.act.now, start + cfg.ttl);
    assert s'.callers[t].pc.Loading? && Loaded(s'.callers[u]) && t != u;
  }

  /** A look outside the gap loads only when nothing was loaded before it. */
  lemma CalmLook(cfg: Config, s: State, step: Step, k: Key, start: real)
    requires Burst(cfg, s, k, start) && Settled(s, k) && AtMostOneLoad(s)
    requires Enabled(cfg, s, step) && Calm(cfg, step, start) && step.act.Look? && !GapOpen(s)
    ensures AtMostOneLoad(Next(cfg, s, step))
  {
    CalmRead(s.cache.entries, k, step.act.now, start + cfg.ttl);
    var t, s' := step.who, Next(cfg, s, step);
    if s'.callers[t].pc.Loading? {
      forall u | 0 <= u < |s.callers| && u != t ensures !Loaded(s.callers[u]) {
        assert CallerOk(s, u);
        assert !InGap(s.callers[u].pc);
        assert !HasReturned(s, u);
      }
    }
  }

  /** Any other step of the burst starts no second load. */
  lemma CalmStepSettles(cfg: Config, s: State, step: Step, k: Key, start: real)
    requires Burst(cfg, s, k, start) && Settled(s, k) && AtMostOneLoad(s)
    requires Enabled(cfg, s, step) && Calm(cfg, step, start) && (step.act.Look? ==> !GapOpen(s))
    ensures AtMostOneLoad(Next(cfg, s, step)) && Settled(Next(cfg, s, step), k)
  {
    var t, s' := step.who, Next(cfg, s, step);
    assert CallerOk(s, t);
    CalmEntries(cfg, s, step, k, start);
    if step.act.Look? {
      CalmLook(cfg, s, step, k, start);
    }
    if step.act.Store? {
      assert HasReturned(s', t);
    } else if k in s.cache.entries.items {
      var u :| HasReturned(s, u);
      assert HasReturned(s', u);
    }
    forall u | HasReturned(s', u) ensures k in s'.cache.entries.items {
      if !step.act.Store? {
        assert HasReturned(s, u);
      }
    }
  }

  lemma {:induction false} OneLoadFrom(cfg: Config, s: State, steps: seq<Step>, k: Key, start: real)
    requires Burst(cfg, s, k, start) && Settled(s, k) && AtMostOneLoad(s)
    requires Legal(cfg, s, steps) && forall i :: 0 <= i < |steps| ==> Calm(cfg, steps[i], start)
    ensures AtMostOneLoad(Exec(cfg, s, steps)) <==> NeverLooksInGap(cfg, s, steps)
    decreases |steps|
  {
    if steps != [] {
      var step, s' := steps[0], Next(cfg, s, steps[0]);
      BurstStep(cfg, s, step, k, start);
      LoadsAccumulate(cfg, s, step);
      if step.act.Look? && GapOpen(s) {
        LookInGapLoads(cfg, s, step, k, start);
        SecondLoadStays(cfg, s', steps[1..], k, start);
      } else {
        CalmStepSettles(cfg, s, step, k, start);
        OneLoadFrom(cfg, s', steps[1..], k, start);
      }
    }
  }

  lemma {:induction false} SecondLoadStays(cfg: Config, s: State, steps: seq<Step>, k: Key, start: real)
    requires Burst(cfg, s, k, start) && !AtMostOneLoad(s)
    requires Legal(cfg, s, steps) && forall i :: 0 <= i < |steps| ==> Calm(cfg, steps[i], start)
    ensures !AtMostOneLoad(Exec(cfg, s, steps))
    decreases |steps|
  {
    if steps != [] {
      BurstStep(cfg, s, steps[0], k, start);
      LoadsAccumulate(cfg, s, steps[0]);
      SecondLoadStays(cfg, Next(cfg, s, steps[0]), steps[1..], k, start);
    }
  }

  /** A burst on one key is loaded once if and only if no caller looks between
      another's removal of the marker and its store - for every number of callers
      and every interleaving in which nothing fails or expires. */
  lemma OneLoadPerBurst(cfg: Config, s: State, steps: seq<Step>, k: Key, start: real)
    requires cfg.max > 0 && Initial(s) && s.cache.entries == Empty()
    requires forall t :: 0 <= t < |s.callers| ==> s.callers[t].key == k
    requires Legal(cfg, s, steps) && forall i :: 0 <= i < |steps| ==> Calm(cfg, steps[i], start)
    ensures AtMostOneLoad(Exec(cfg, s, steps)) <==> NeverLooksInGap(cfg, s, steps)
  {
    InitialInv(s);
    OneLoadFrom(cfg, s, steps, k, start);
  }

  /** Callers of `k` that have just called, on an empty cache. */
  function Callers(k: Key, n: nat): State {
    State(AsyncTtlCache.View(Empty(), map[], 0, 0), {}, seq(n, _ => Caller(k, Ready, {}, None)))
  }

  ghost predicate Follows(cfg: Config, s: State, step: Step, next: State) {
    Enabled(cfg, s, step) && next == Next(cfg, s, step)
  }

  /** The first of `n` callers has loaded, removed its marker and told the waiters, and has not stored. */
  ghost predicate FirstUnstored(s: State, k: Key, n: nat) {
    && |s.callers| == n >= 2
    && s.callers[0].pc.Storing? && s.callers[0].own.Some? && s.callers[1] == Caller(k, Ready, {}, None)
    && s.cache.entries == Empty() && s.cache.loading == map[]
  }

  lemma FirstInGap(cfg: Config, k: Key, n: nat) returns (s1: State, s2: State, s3: State, s4: State)
    requires cfg.max > 0 && n >= 2
    ensures Initial(Callers(k, n)) && Callers(k, n).cache.entries == Empty()
    ensures Follows(cfg, Callers(k, n), By(0, Look(0.0)), s1) && Follows(cfg, s1, By(0, Finish(Loads([]))), s2)
    ensures Follows(cfg, s2, By(0, Pop), s3) && Follows(cfg, s3, By(0, Signal), s4)
    ensures FirstUnstored(s4, k, n)
  {
    s1 := Next(cfg, Callers(k, n), By(0, Look(0.0)));
    s2 := Next(cfg, s1, By(0, Finish(Loads([]))));
    s3 := Next(cfg, s2, By(0, Pop));
    s4 := Next(cfg, s3, By(0, Signal));
    assert s3.cache.loading == map[];
  }

  lemma SecondLoads(cfg: Config, s: State, k: Key, n: nat) returns (next: State)
    requires cfg.max > 0 && FirstUnstored(s, k, n)
    ensures Follows(cfg, s, By(1, Look(0.0)), next) && !AtMostOneLoad(next)
  {
    next := Next(cfg, s, By(1, Look(0.0)));
    assert Loaded(next.callers[0]) && Loaded(next.callers[1]);
  }

  /** What a caller can know beforehand: with two callers or more nothing rules a
      second load out. Whatever the configuration, the key and the number of
      callers, some run without failure or expiry loads twice: the second caller
      looks while the first, its waiters told, waits for the lock to store. */
  lemma TwoLoadsInAnyBurst(cfg: Config, k: Key, n: nat) returns (steps: seq<Step>)
    requires cfg.max > 0 && cfg.ttl > 0.0 && n >= 2
    ensures steps == [By(0, Look(0.0)), By(0, Finish(Loads([]))), By(0, Pop), By(0, Signal), By(1, Look(0.0))]
    ensures Initial(Callers(k, n)) && Callers(k, n).cache.entries == Empty()
    ensures Legal(cfg, Callers(k, n), steps) && forall i :: 0 <= i < |steps| ==> Calm(cfg, steps[i], 0.0)
    ensures !AtMostOneLoad(Exec(cfg, Callers(k, n), steps))
  {
    steps := [By(0, Look(0.0)), By(0, Finish(Loads([]))), By(0, Pop), By(0, Signal), By(1, Look(0.0))];
    var s1, s2, s3, s4 := FirstInGap(cfg, k, n);
    var s5 := SecondLoads(cfg, s4, k, n);
    StateByState(cfg, [Callers(k, n), s1, s2, s3, s4, s5], steps);
  }

  /** A run, given with every state it passes. */
  lemma {:induction false} StateByState(cfg: Config, states: seq<State>, steps: seq<Step>)
    requires |states| == |steps| + 1
    requires forall i :: 0 <= i < |steps| ==> Follows(cfg, states[i], steps[i], states[i + 1])
    ensures Legal(cfg, states[0], steps) && Exec(cfg, states[0], steps) == states[|steps|]
    decreases |steps|
  {
    if steps != [] {
      assert Follows(cfg, states[0], steps[0], states[1]);
      forall i | 0 <= i < |steps| - 1 ensures Follows(cfg, states[1..][i], steps[1..][i], states[1..][i + 1]) {
        assert Follows(cfg, states[i + 1], steps[i + 1], states[i + 2]);
      }
      StateByState(cfg, states[1..], steps[1..]);
    }
  }

  /** One caller loads once; two or more may load twice. */
  lemma OneLoadGuaranteedIff(cfg: Config, k: Key, n: nat)
    requires cfg.max > 0 && cfg.ttl > 0.0
    ensures n <= 1 <==> forall steps ::
              Legal(cfg, Callers(k, n), steps) && (forall i :: 0 <= i < |steps| ==> Calm(cfg, steps[i], 0.0)) ==>
                AtMostOneLoad(Exec(cfg, Callers(k, n), steps))
  {
    if n >= 2 {
      var steps := TwoLoadsInAnyBurst(cfg, k, n);
    }
  }
}
