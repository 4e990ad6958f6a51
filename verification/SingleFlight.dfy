/** `AsyncTTLCache.get_or_load` as a protocol: any number of callers, every interleaving.

    A caller is suspended at each `await`, so a run is a sequence of steps, each
    performed by one caller between two suspension points, mixed with `get`,
    `set` and `clear` calls made by others. The loader's result is an oracle: the
    step that finishes a load carries whatever came back or was raised.

    The removal of the in-flight marker and the signalling of its event are kept
    as two steps, which is finer than the source needs and so covers it; a run that
    is exhibited takes one right after the other.
 */
module SingleFlight {
  import opened Wrappers
  import opened OrderedDict
  import opened AsyncTtlCache
  import Lru = LruStore

  type Key = string
  type Vector = seq<real>
  type Error = string

  datatype Outcome = Loads(value: Vector) | Raises(error: Error)

  /** Where a caller is suspended. */
  datatype Pc =
    | Ready
    | Waiting(event: nat)
    | Loading
    | Loaded(out: Outcome)
    | Popped(out: Outcome, waiters: Option<nat>)
    | Storing(value: Vector)
    | Returned(value: Vector)
    | Failed(error: Error)

  /** One call of `get_or_load`: `waited` holds the events it has woken from. */
  datatype Caller = Caller(key: Key, pc: Pc, waited: set<nat>, own: Option<Outcome>)

  datatype Config = Config(max: nat, ttl: real)

  datatype State = State(cache: View<Key, Vector>, signalled: set<nat>, callers: seq<Caller>)

  /** What a caller does between two suspension points. */
  datatype Act =
    | Look(now: real)
    | Wake
    | Finish(out: Outcome)
    | Pop
    | Signal
    | Store(now: real)
    | Direct(out: Outcome)

  datatype Step =
    | By(who: nat, act: Act)
    | OtherGet(key: Key, now: real)
    | OtherSet(key: Key, value: Vector, now: real)
    | OtherClear

  predicate Enabled(cfg: Config, s: State, step: Step) {
    step.By? ==>
      && step.who < |s.callers|
      && CanAct(cfg, s, s.callers[step.who].pc, step.act)
  }

  predicate CanAct(cfg: Config, s: State, pc: Pc, act: Act) {
    match act
    case Look(_) => cfg.max > 0 && pc.Ready?
    case Wake => pc.Waiting? && pc.event in s.signalled
    case Finish(_) => pc.Loading?
    case Pop => pc.Loaded?
    case Signal => pc.Popped?
    case Store(_) => pc.Storing?
    case Direct(_) => cfg.max == 0 && pc.Ready?
  }

  function CacheAfter(cfg: Config, s: State, t: nat, act: Act): View<Key, Vector>
    requires Enabled(cfg, s, By(t, act))
  {
    var c := s.callers[t];
    match act
    case Look(now) => AfterLook(s.cache, c.key, t, now)
    case Pop => AfterPop(s.cache, c.key)
    case Store(now) => AfterWrite(s.cache, cfg.max, cfg.ttl, c.key, c.pc.value, now)
    case _ => s.cache
  }

  function PcAfter(cfg: Config, s: State, t: nat, act: Act): Pc
    requires Enabled(cfg, s, By(t, act))
  {
    var c := s.callers[t];
    match act
    case Look(now) =>
      (match AsyncTtlCache.Look(s.cache, c.key, now)
       case Cached(v) => Returned(v)
       case InFlight(e) => Waiting(e)
       case Claimed => Loading)
    case Wake => Ready
    case Finish(out) => Loaded(out)
    case Pop => Popped(c.pc.out, if c.key in s.cache.loading then Some(s.cache.loading[c.key]) else None)
    case Signal => (match c.pc.out case Loads(v) => Storing(v) case Raises(e) => Failed(e))
    case Store(_) => Returned(c.pc.value)
    case Direct(out) => (match out case Loads(v) => Returned(v) case Raises(e) => Failed(e))
  }

  function CallerAfter(cfg: Config, s: State, t: nat, act: Act): Caller
    requires Enabled(cfg, s, By(t, act))
  {
    var c := s.callers[t].(pc := PcAfter(cfg, s, t, act));
    match act
    case Wake => c.(waited := c.waited + {s.callers[t].pc.event})
    case Finish(out) => c.(own := Some(out))
    case Direct(out) => c.(own := Some(out))
    case _ => c
  }

  function SignalledAfter(cfg: Config, s: State, t: nat, act: Act): set<nat>
    requires Enabled(cfg, s, By(t, act))
  {
    if act.Signal? && s.callers[t].pc.waiters.Some? then s.signalled + {s.callers[t].pc.waiters.value} else s.signalled
  }

  function Next(cfg: Config, s: State, step: Step): State
    requires Enabled(cfg, s, step)
  {
    match step
    case By(t, act) =>
      State(CacheAfter(cfg, s, t, act), SignalledAfter(cfg, s, t, act), s.callers[t := CallerAfter(cfg, s, t, act)])
    case OtherGet(k, now) => s.(cache := AfterRead(s.cache, k, now))
    case OtherSet(k, v, now) =>
      if cfg.max > 0 then s.(cache := AfterWrite(s.cache, cfg.max, cfg.ttl, k, v, now)) else s
    case OtherClear => s.(cache := s.cache.(entries := Empty()))
  }

  /** Callers that have just called, on a cache nobody is loading into. */
  ghost predicate Initial(s: State) {
    && s.cache.loading == map[]
    && s.signalled == {}
    && forall t :: 0 <= t < |s.callers| ==>
         s.callers[t].pc == Ready && s.callers[t].waited == {} && s.callers[t].own == None
  }

  ghost predicate Legal(cfg: Config, s: State, steps: seq<Step>)
    decreases |steps|
  {
    steps == [] || (Enabled(cfg, s, steps[0]) && Legal(cfg, Next(cfg, s, steps[0]), steps[1..]))
  }

  /** The state a run leads to. */
  ghost function Exec(cfg: Config, s: State, steps: seq<Step>): (r: State)
    requires Legal(cfg, s, steps)
    ensures |r.callers| == |s.callers|
    decreases |steps|
  {
    if steps == [] then s else Exec(cfg, Next(cfg, s, steps[0]), steps[1..])
  }

  // ------------------------------------------------------------- invariant

  predicate Owns(pc: Pc) {
    pc.Loading? || pc.Loaded?
  }

  predicate Done(pc: Pc) {
    pc.Returned? || pc.Failed?
  }

  /** Waiters hold an event that is set, about to be set, or registered by a live owner. */
  ghost predicate Wakeable(s: State, k: Key, e: nat) {
    && e < |s.callers|
    && s.callers[e].key == k
    && (|| e in s.signalled
        || (s.callers[e].pc.Popped? && s.callers[e].pc.waiters == Some(e))
        || (Owns(s.callers[e].pc) && k in s.cache.loading && s.cache.loading[k] == e))
  }

  ghost predicate CallerOk(s: State, t: nat)
    requires t < |s.callers|
  {
    var c := s.callers[t];
    && t !in c.waited
    && c.waited <= s.signalled
    && match c.pc {
      case Ready => t !in s.signalled && c.own == None
      case Waiting(e) => t !in s.signalled && c.own == None && e != t && e !in c.waited && Wakeable(s, c.key, e)
      case Loading => t !in s.signalled && c.own == None && c.key in s.cache.loading && s.cache.loading[c.key] == t
      case Loaded(out) =>
        t !in s.signalled && c.own == Some(out) && c.key in s.cache.loading && s.cache.loading[c.key] == t
      case Popped(out, waiters) => t !in s.signalled && c.own == Some(out) && waiters == Some(t)
      case Storing(v) => c.own == Some(Loads(v))
      case Returned(v) => c.own == None || c.own == Some(Loads(v))
      case Failed(e) => c.own == Some(Raises(e))
    }
  }

  ghost predicate Inv(s: State) {
    && (forall k :: k in s.cache.loading ==>
          var e := s.cache.loading[k];
          e < |s.callers| && s.callers[e].key == k && Owns(s.callers[e].pc))
    && (forall e :: e in s.signalled ==> e < |s.callers|)
    && (forall t :: 0 <= t < |s.callers| ==> CallerOk(s, t))
  }

  lemma ActorOk(cfg: Config, s: State, t: nat, act: Act)
    requires Inv(s) && Enabled(cfg, s, By(t, act))
    ensures CallerOk(Next(cfg, s, By(t, act)), t)
  {
    assert CallerOk(s, t);
    var k := s.callers[t].key;
    if k in s.cache.loading {
      assert CallerOk(s, s.cache.loading[k]);
    }
  }

  lemma OtherCallersOk(cfg: Config, s: State, step: Step, u: nat)
    requires Inv(s) && Enabled(cfg, s, step) && u < |s.callers| && (step.By? ==> u != step.who)
    ensures CallerOk(Next(cfg, s, step), u)
  {
    assert CallerOk(s, u);
    if step.By? {
      assert CallerOk(s, step.who);
    }
  }

  lemma LoadingOk(cfg: Config, s: State, step: Step, k: Key)
    requires Inv(s) && Enabled(cfg, s, step) && k in Next(cfg, s, step).cache.loading
    ensures var s' := Next(cfg, s, step);
            var e := s'.cache.loading[k];
            e < |s'.callers| && s'.callers[e].key == k && Owns(s'.callers[e].pc)
  {
    if step.By? {
      assert CallerOk(s, step.who);
    }
  }

  lemma NextKeepsInv(cfg: Config, s: State, step: Step)
    requires Inv(s) && Enabled(cfg, s, step)
    ensures Inv(Next(cfg, s, step))
    ensures |Next(cfg, s, step).callers| == |s.callers|
    ensures forall t :: 0 <= t < |s.callers| ==> Next(cfg, s, step).callers[t].key == s.callers[t].key
  {
    var s' := Next(cfg, s, step);
    forall k | k in s'.cache.loading
      ensures var e := s'.cache.loading[k];
              e < |s'.callers| && s'.callers[e].key == k && Owns(s'.callers[e].pc)
    {
      LoadingOk(cfg, s, step, k);
    }
    if step.By? {
      assert CallerOk(s, step.who);
    }
    forall u | 0 <= u < |s'.callers| ensures CallerOk(s', u) {
      if step.By? && u == step.who {
        ActorOk(cfg, s, u, step.act);
      } else {
        OtherCallersOk(cfg, s, step, u);
      }
    }
  }

  lemma InitialInv(s: State)
    requires Initial(s)
    ensures Inv(s)
  {
    forall t | 0 <= t < |s.callers| ensures CallerOk(s, t) {
    }
  }

  lemma {:induction false} RunKeepsInv(cfg: Config, s: State, steps: seq<Step>)
    requires Inv(s) && Legal(cfg, s, steps)
    ensures Inv(Exec(cfg, s, steps))
    ensures forall t :: 0 <= t < |s.callers| ==> Exec(cfg, s, steps).callers[t].key == s.callers[t].key
    decreases |steps|
  {
    if steps != [] {
      NextKeepsInv(cfg, s, steps[0]);
      RunKeepsInv(cfg, Next(cfg, s, steps[0]), steps[1..]);
    }
  }

  // ---------------------------------------------------------------- safety

  /** Between claiming a key and removing the marker. */
  ghost predicate InFlightFor(s: State, t: nat, k: Key) {
    t < |s.callers| && s.callers[t].key == k && Owns(s.callers[t].pc)
  }

  /** One load in flight at a time, in every run: `_loading` holds a key exactly
      while one caller is between its claim and its removal, and names that caller. */
  lemma OneLoadInFlight(cfg: Config, s: State, steps: seq<Step>, k: Key)
    requires Initial(s) && Legal(cfg, s, steps)
    ensures var s' := Exec(cfg, s, steps);
            && (k in s'.cache.loading <==> exists t :: InFlightFor(s', t, k))
            && (forall t :: InFlightFor(s', t, k) ==> s'.cache.loading[k] == t)
  {
    InitialInv(s);
    RunKeepsInv(cfg, s, steps);
    var s' := Exec(cfg, s, steps);
    forall t | InFlightFor(s', t, k) ensures k in s'.cache.loading && s'.cache.loading[k] == t {
      assert CallerOk(s', t);
    }
    if k in s'.cache.loading {
      assert InFlightFor(s', s'.cache.loading[k], k);
    }
  }

  /** No lost wake-up, in every run: what a caller waits for is signalled, or its
      owner has still to signal it - however that owner's load turned out. */
  lemma NoLostWakeup(cfg: Config, s: State, steps: seq<Step>, t: nat)
    requires Initial(s) && Legal(cfg, s, steps) && t < |s.callers|
    ensures var s' := Exec(cfg, s, steps);
            s'.callers[t].pc.Waiting? ==>
              && s'.callers[t].pc.event != t
              && Wakeable(s', s'.callers[t].key, s'.callers[t].pc.event)
  {
    InitialInv(s);
    RunKeepsInv(cfg, s, steps);
    assert CallerOk(Exec(cfg, s, steps), t);
  }

  /** A caller fails only with what its own loader raised. */
  lemma OwnErrorsOnly(cfg: Config, s: State, steps: seq<Step>, t: nat)
    requires Initial(s) && Legal(cfg, s, steps) && t < |s.callers|
    ensures var c := Exec(cfg, s, steps).callers[t];
            && (c.pc.Failed? ==>
                  By(t, Finish(Raises(c.pc.error))) in steps || By(t, Direct(Raises(c.pc.error))) in steps)
            && (c.own == None && Done(c.pc) ==> c.pc.Returned?)
  {
    InitialInv(s);
    RunKeepsInv(cfg, s, steps);
    assert CallerOk(Exec(cfg, s, steps), t);
    OwnFromSteps(cfg, s, steps, t);
  }

  lemma {:induction false} OwnFromSteps(cfg: Config, s: State, steps: seq<Step>, t: nat)
    requires Legal(cfg, s, steps) && t < |s.callers|
    ensures var own := Exec(cfg, s, steps).callers[t].own;
            own.Some? && own != s.callers[t].own ==>
              By(t, Finish(own.value)) in steps || By(t, Direct(own.value)) in steps
    decreases |steps|
  {
    if steps != [] {
      OwnFromSteps(cfg, Next(cfg, s, steps[0]), steps[1..], t);
      assert steps == [steps[0]] + steps[1..];
    }
  }

  // ------------------------------------------------------------ provenance

  /** The values loaders produced, or others set, for each key. */
  ghost function Produced(s: State, steps: seq<Step>): set<(Key, Vector)> {
    if steps == [] then {}
    else
      var rest := Produced(s, steps[1..]);
      match steps[0]
      case By(t, Finish(Loads(v))) => if t < |s.callers| then rest + {(s.callers[t].key, v)} else rest
      case By(t, Direct(Loads(v))) => if t < |s.callers| then rest + {(s.callers[t].key, v)} else rest
      case OtherSet(k, v, _) => rest + {(k, v)}
      case _ => rest
  }

  ghost predicate EntriesFrom(d: Lru.Table<Key, Vector>, from: set<(Key, Vector)>) {
    && Valid(d)
    && forall k :: k in d.items ==> (k, d.items[k].value) in from
  }

  ghost predicate CallerFrom(c: Caller, from: set<(Key, Vector)>) {
    match c.pc
    case Loaded(Loads(v)) => (c.key, v) in from
    case Popped(Loads(v), _) => (c.key, v) in from
    case Storing(v) => (c.key, v) in from
    case Returned(v) => (c.key, v) in from
    case _ => true
  }

  /** Everything cached, being stored, or returned came from `from`. */
  ghost predicate Sourced(s: State, from: set<(Key, Vector)>) {
    && EntriesFrom(s.cache.entries, from)
    && forall t :: 0 <= t < |s.callers| ==> CallerFrom(s.callers[t], from)
  }

  lemma ReadFrom(d: Lru.Table<Key, Vector>, k: Key, now: real, from: set<(Key, Vector)>)
    requires EntriesFrom(d, from)
    ensures EntriesFrom(Lru.Read(d, k, now), from)
    ensures Lru.Peek(d, k, now).Some? ==> (k, Lru.Peek(d, k, now).value) in from
  {
    Lru.ReadEffect(d, k, now);
  }

  lemma WriteFrom(d: Lru.Table<Key, Vector>, max: nat, k: Key, x: Lru.Slot<Vector>, from: set<(Key, Vector)>)
    requires EntriesFrom(d, from) && (k, x.value) in from
    ensures EntriesFrom(Lru.Write(d, max, k, x), from)
  {
    Lru.WriteEffect(d, max, k, x);
  }

  lemma CacheAfterFrom(cfg: Config, s: State, t: nat, act: Act, from: set<(Key, Vector)>)
    requires Sourced(s, from) && Enabled(cfg, s, By(t, act))
    ensures EntriesFrom(CacheAfter(cfg, s, t, act).entries, from)
  {
    var c, d := s.callers[t], s.cache.entries;
    match act
    case Look(now) =>
      ReadFrom(d, c.key, now, from);
    case Store(now) =>
      assert CallerFrom(c, from);
      WriteFrom(d, cfg.max, c.key, Lru.Slot(c.pc.value, Some(now + cfg.ttl)), from);
    case _ =>
  }

  lemma CallerAfterFrom(cfg: Config, s: State, t: nat, act: Act, from: set<(Key, Vector)>)
    requires Sourced(s, from) && Enabled(cfg, s, By(t, act)) && Produced(s, [By(t, act)]) <= from
    ensures CallerFrom(CallerAfter(cfg, s, t, act), from)
  {
    var c := s.callers[t];
    assert CallerFrom(c, from);
    match act
    case Look(now) => ReadFrom(s.cache.entries, c.key, now, from);
    case Finish(Loads(v)) => assert (c.key, v) in Produced(s, [By(t, act)]);
    case Direct(Loads(v)) => assert (c.key, v) in Produced(s, [By(t, act)]);
    case _ =>
  }

  lemma NextSourced(cfg: Config, s: State, step: Step, from: set<(Key, Vector)>)
    requires Sourced(s, from) && Enabled(cfg, s, step) && Produced(s, [step]) <= from
    ensures Sourced(Next(cfg, s, step), from)
  {
    var d := s.cache.entries;
    match step
    case By(t, act) =>
      CacheAfterFrom(cfg, s, t, act, from);
      CallerAfterFrom(cfg, s, t, act, from);
    case OtherGet(k, now) =>
      ReadFrom(d, k, now, from);
    case OtherSet(k, v, now) =>
      assert (k, v) in Produced(s, [step]);
      WriteFrom(d, cfg.max, k, Lru.Slot(v, Some(now + cfg.ttl)), from);
    case OtherClear =>
  }

  lemma {:induction false} RunSourced(cfg: Config, s: State, steps: seq<Step>, from: set<(Key, Vector)>)
    requires Inv(s) && Sourced(s, from) && Legal(cfg, s, steps) && Produced(s, steps) <= from
    ensures Sourced(Exec(cfg, s, steps), from)
    decreases |steps|
  {
    if steps != [] {
      NextKeepsInv(cfg, s, steps[0]);
      ProducedSplit(s, Next(cfg, s, steps[0]), steps);
      NextSourced(cfg, s, steps[0], from);
      RunSourced(cfg, Next(cfg, s, steps[0]), steps[1..], from);
    }
  }

  lemma ProducedSplit(s: State, s': State, steps: seq<Step>)
    requires steps != [] && |s.callers| == |s'.callers|
    requires forall t :: 0 <= t < |s.callers| ==> s.callers[t].key == s'.callers[t].key
    ensures Produced(s, steps) == Produced(s, [steps[0]]) + Produced(s', steps[1..])
  {
    ProducedByKeys(s, s', steps[1..]);
    assert [steps[0]][1..] == [];
  }

  lemma {:induction false} ProducedByKeys(s: State, s': State, steps: seq<Step>)
    requires |s.callers| == |s'.callers|
    requires forall t :: 0 <= t < |s.callers| ==> s.callers[t].key == s'.callers[t].key
    ensures Produced(s, steps) == Produced(s', steps)
  {
    if steps != [] {
      ProducedByKeys(s, s', steps[1..]);
    }
  }

  /** Whatever interleaving, a value returned for a key was loaded or set for that key. */
  lemma ReturnsWhatWasLoaded(cfg: Config, s: State, steps: seq<Step>, t: nat)
    requires Initial(s) && s.cache.entries == Empty() && Legal(cfg, s, steps) && t < |s.callers|
    ensures var c := Exec(cfg, s, steps).callers[t];
            c.pc.Returned? ==> (s.callers[t].key, c.pc.value) in Produced(s, steps)
  {
    InitialInv(s);
    RunKeepsInv(cfg, s, steps);
    RunSourced(cfg, s, steps, Produced(s, steps));
  }

  // ----------------------------------------------------- bounds and progress

  /** An upper bound on the steps a caller has left, among `n` callers. */
  function Rank(n: nat, c: Caller): int {
    match c.pc
    case Ready => 2 * (n - |c.waited|) + 4
    case Waiting(_) => 2 * (n - |c.waited|) + 3
    case Loading => 4
    case Loaded(_) => 3
    case Popped(_, _) => 2
    case Storing(_) => 1
    case _ => 0
  }

  function Work(n: nat, cs: seq<Caller>): int {
    if cs == [] then 0 else Rank(n, cs[0]) + Work(n, cs[1..])
  }

  lemma {:induction false} WorkUpdate(n: nat, cs: seq<Caller>, t: nat, c: Caller)
    requires t < |cs|
    ensures Work(n, cs[t := c]) == Work(n, cs) - Rank(n, cs[t]) + Rank(n, c)
  {
    if t == 0 {
      assert cs[0 := c][1..] == cs[1..];
    } else {
      assert cs[t := c][1..] == cs[1..][t - 1 := c];
      WorkUpdate(n, cs[1..], t - 1, c);
    }
  }

  lemma {:induction false} WorkNonNegative(n: nat, cs: seq<Caller>)
    requires forall i :: 0 <= i < |cs| ==> Rank(n, cs[i]) >= 0
    ensures Work(n, cs) >= 0
  {
    if cs != [] {
      WorkNonNegative(n, cs[1..]);
    }
  }

  lemma {:induction false} WorkInitially(n: nat, cs: seq<Caller>)
    requires forall i :: 0 <= i < |cs| ==> cs[i].pc == Ready && cs[i].waited == {}
    ensures Work(n, cs) == |cs| * (2 * n + 4)
  {
    if cs != [] {
      WorkInitially(n, cs[1..]);
    }
  }

  lemma {:induction false} BelowSize(n: nat, waited: set<nat>)
    requires forall e :: e in waited ==> e < n
    ensures |waited| <= n
  {
    if n == 0 {
      assert waited == {};
    } else {
      BelowSize(n - 1, waited - {n - 1});
    }
  }

  /** The events a caller has woken from are other callers'. */
  lemma WaitedBelow(s: State, t: nat)
    requires Inv(s) && t < |s.callers|
    ensures |s.callers[t].waited| < |s.callers|
    ensures Rank(|s.callers|, s.callers[t]) >= 0
  {
    assert CallerOk(s, t);
    var waited := s.callers[t].waited;
    BelowSize(|s.callers|, waited + {t});
  }

  /** How often caller `t` goes round its loop. */
  function Wakes(steps: seq<Step>, t: nat): nat {
    if steps == [] then 0 else (if steps[0] == By(t, Wake) then 1 else 0) + Wakes(steps[1..], t)
  }

  /** Every turn of the loop adds an event to those woken from. */
  lemma {:induction false} WakesCounted(cfg: Config, s: State, steps: seq<Step>, t: nat)
    requires Inv(s) && Legal(cfg, s, steps) && t < |s.callers|
    ensures |Exec(cfg, s, steps).callers[t].waited| == |s.callers[t].waited| + Wakes(steps, t)
    decreases |steps|
  {
    if steps != [] {
      assert CallerOk(s, t);
      NextKeepsInv(cfg, s, steps[0]);
      WakesCounted(cfg, Next(cfg, s, steps[0]), steps[1..], t);
    }
  }

  /** In every run a caller goes round its loop at most once for each other caller. */
  lemma WaitsBounded(cfg: Config, s: State, steps: seq<Step>, t: nat)
    requires Initial(s) && Legal(cfg, s, steps) && t < |s.callers|
    ensures Wakes(steps, t) < |s.callers|
  {
    InitialInv(s);
    RunKeepsInv(cfg, s, steps);
    WakesCounted(cfg, s, steps, t);
    WaitedBelow(Exec(cfg, s, steps), t);
  }

  ghost function CallerSteps(steps: seq<Step>): nat {
    if steps == [] then 0 else (if steps[0].By? then 1 else 0) + CallerSteps(steps[1..])
  }

  lemma StepsShrinkWork(cfg: Config, s: State, t: nat, act: Act)
    requires Inv(s) && Enabled(cfg, s, By(t, act))
    ensures var n := |s.callers|; Work(n, Next(cfg, s, By(t, act)).callers) < Work(n, s.callers)
  {
    RankFalls(cfg, s, t, act);
    WorkUpdate(|s.callers|, s.callers, t, CallerAfter(cfg, s, t, act));
  }

  lemma RankFalls(cfg: Config, s: State, t: nat, act: Act)
    requires Inv(s) && Enabled(cfg, s, By(t, act))
    ensures var n := |s.callers|; Rank(n, CallerAfter(cfg, s, t, act)) < Rank(n, s.callers[t])
  {
    assert CallerOk(s, t);
    WaitedBelow(s, t);
  }

  lemma {:induction false} StepsBounded(cfg: Config, s: State, steps: seq<Step>)
    requires Inv(s) && Legal(cfg, s, steps)
    ensures CallerSteps(steps) <= Work(|s.callers|, s.callers)
    decreases |steps|
  {
    if steps == [] {
      forall t | 0 <= t < |s.callers| ensures Rank(|s.callers|, s.callers[t]) >= 0 {
        WaitedBelow(s, t);
      }
      WorkNonNegative(|s.callers|, s.callers);
    } else {
      var s' := Next(cfg, s, steps[0]);
      NextKeepsInv(cfg, s, steps[0]);
      StepsBounded(cfg, s', steps[1..]);
      if steps[0].By? {
        StepsShrinkWork(cfg, s, steps[0].who, steps[0].act);
      }
    }
  }

  // ------------------------------------------------------------- how many loads

  /** Steps that end one run of a loader. */
  function LoadsRun(steps: seq<Step>): nat {
    if steps == [] then 0
    else (if steps[0].By? && (steps[0].act.Finish? || steps[0].act.Direct?) then 1 else 0) + LoadsRun(steps[1..])
  }

  /** Callers whose loader has ended. */
  function Ended(callers: seq<Caller>): nat {
    if callers == [] then 0
    else Ended(callers[..|callers| - 1]) + if callers[|callers| - 1].own.Some? then 1 else 0
  }

  lemma {:induction false} EndedAtMost(callers: seq<Caller>)
    ensures Ended(callers) <= |callers|
  {
    if callers != [] {
      EndedAtMost(callers[..|callers| - 1]);
    }
  }

  lemma {:induction false} EndedUpdate(callers: seq<Caller>, t: nat, c: Caller)
    requires t < |callers|
    ensures Ended(callers[t := c]) + (if callers[t].own.Some? then 1 else 0)
              == Ended(callers) + if c.own.Some? then 1 else 0
  {
    var n := |callers| - 1;
    if t == n {
      assert callers[t := c][..n] == callers[..n];
    } else {
      assert callers[t := c][..n] == callers[..n][t := c];
      EndedUpdate(callers[..n], t, c);
    }
  }

  lemma {:induction false} LoadsFrom(cfg: Config, s: State, steps: seq<Step>)
    requires Inv(s) && Legal(cfg, s, steps)
    ensures LoadsRun(steps) + Ended(s.callers) <= |s.callers|
    decreases |steps|
  {
    EndedAtMost(s.callers);
    if steps != [] {
      var step := steps[0];
      NextKeepsInv(cfg, s, step);
      LoadsFrom(cfg, Next(cfg, s, step), steps[1..]);
      if step.By? {
        assert CallerOk(s, step.who);
        EndedUpdate(s.callers, step.who, CallerAfter(cfg, s, step.who, step.act));
      }
    }
  }

  /** Among `n` callers at most `n` loads run, whatever fails, expires or is evicted. */
  lemma AtMostOneLoadEach(cfg: Config, s: State, steps: seq<Step>)
    requires Initial(s) && Legal(cfg, s, steps)
    ensures LoadsRun(steps) <= |s.callers|
  {
    InitialInv(s);
    LoadsFrom(cfg, s, steps);
  }

  // ------------------------------------------------------------------- counters

  /** A step that reads the table, and whether it found a live value. */
  predicate Reads(step: Step) {
    step.OtherGet? || (step.By? && step.act.Look?)
  }

  predicate FindsValue(cfg: Config, s: State, step: Step)
    requires Enabled(cfg, s, step)
  {
    match step
    case By(t, act) => act.Look? && Next(cfg, s, step).callers[t].pc.Returned?
    case OtherGet(k, now) =>
      && k in s.cache.entries.items
      && (s.cache.entries.items[k].deadline.Some? ==> now < s.cache.entries.items[k].deadline.value)
    case _ => false
  }

  function ReadsIn(steps: seq<Step>): nat {
    if steps == [] then 0 else (if Reads(steps[0]) then 1 else 0) + ReadsIn(steps[1..])
  }

  ghost function FoundIn(cfg: Config, s: State, steps: seq<Step>): nat
    requires Legal(cfg, s, steps)
    decreases |steps|
  {
    if steps == [] then 0
    else (if FindsValue(cfg, s, steps[0]) then 1 else 0) + FoundIn(cfg, Next(cfg, s, steps[0]), steps[1..])
  }

  /** The counters account for every read: hits are those that found a live value, misses the rest. */
  lemma {:induction false} CountersAddUp(cfg: Config, s: State, steps: seq<Step>)
    requires Legal(cfg, s, steps)
    ensures Exec(cfg, s, steps).cache.hits == s.cache.hits + FoundIn(cfg, s, steps)
    ensures Exec(cfg, s, steps).cache.hits + Exec(cfg, s, steps).cache.misses
              == s.cache.hits + s.cache.misses + ReadsIn(steps)
    decreases |steps|
  {
    if steps != [] {
      CountersAddUp(cfg, Next(cfg, s, steps[0]), steps[1..]);
    }
  }

  // ------------------------------------------------------------------ progress

  /** While any caller is unfinished, some caller can act: the protocol never deadlocks. */
  lemma Progress(cfg: Config, s: State, t: nat, out: Outcome, now: real) returns (step: Step)
    requires Inv(s) && t < |s.callers| && !Done(s.callers[t].pc)
    ensures step.By? && Enabled(cfg, s, step)
  {
    assert CallerOk(s, t);
    match s.callers[t].pc
    case Ready => step := By(t, if cfg.max > 0 then Look(now) else Direct(out));
    case Loading => step := By(t, Finish(out));
    case Loaded(_) => step := By(t, Pop);
    case Popped(_, _) => step := By(t, Signal);
    case Storing(_) => step := By(t, Store(now));
    case Waiting(e) =>
      match s.callers[e].pc {
        case Loading => step := By(e, Finish(out));
        case Loaded(_) => step := By(e, Pop);
        case Popped(_, _) => step := By(e, Signal);
        case _ => step := By(t, Wake);
      }
  }

  /** Every caller is answered: no run takes more than `n * (2n + 4)` caller steps,
      and one that no caller can extend has finished every call. */
  lemma EveryCallFinishes(cfg: Config, s: State, steps: seq<Step>)
    requires Initial(s) && Legal(cfg, s, steps)
    ensures var n := |s.callers|; CallerSteps(steps) <= n * (2 * n + 4)
    ensures var s' := Exec(cfg, s, steps);
            (forall step: Step :: step.By? ==> !Enabled(cfg, s', step)) ==>
              forall t :: 0 <= t < |s'.callers| ==> Done(s'.callers[t].pc)
  {
    InitialInv(s);
    RunKeepsInv(cfg, s, steps);
    StepsBounded(cfg, s, steps);
    WorkInitially(|s.callers|, s.callers);
    var s' := Exec(cfg, s, steps);
    if (forall step: Step :: step.By? ==> !Enabled(cfg, s', step)) {
      forall t | 0 <= t < |s'.callers| ensures Done(s'.callers[t].pc) {
        if !Done(s'.callers[t].pc) {
          var step := Progress(cfg, s', t, Loads([]), 0.0);
        }
      }
    }
  }
}
