/** The cache in front of the graph: answer from it, or run the graph and record it.

    One call is served at a time here; `CacheProtocol` covers interleaved ones.
 */
module CachedAgent {
  import opened Wrappers
  import opened OrderedDict
  import opened Vectors
  import opened CacheRecords
  import opened Gateway
  import opened MemoryStore
  import opened MemoryWriter
  import opened Text
  import opened Transcripts
  import opened UserFacts
  import CacheBackend
  import QueryKeys
  import Cadence = MemoryCadence
  import G = AgentGraph

  datatype Request = Request(id: string, query: string)

  /** Where an answer came from. */
  datatype Via = Live | Cached(kind: Kind, age: real, key: Key, similarity: real)

  datatype Report = Report(metadata: G.Metadata, via: Via)

  datatype Response = Response(id: string, answer: string, report: Report)

  datatype Stage = InGraph(node: G.Node) | InCache

  datatype Event =
    | StageReached(stage: Stage)
    | Drafted(stage: Stage, answer: string)
    | Result(answer: string, report: Report)

  datatype Options = Options(
    gateway: Gateway.Settings,
    lim: CacheBackend.Limits,
    graph: G.Settings,
    store: MemoryStore.Settings,
    memory: bool,
    extract: bool)

  /** Everything a call can change. */
  datatype Host = Host(cache: Cache, sessions: Sessions)

  /** Everything the outside world answers during one call. */
  datatype Outside = Outside(
    lookupClock: nat -> real,
    lookupReply: Option<Vector>,
    replies: seq<G.Reply>,
    memory: MemoryWriter.Reply,
    storeClock: nat -> real,
    storeReply: Option<Vector>)

  /** Whether the question can be read without the conversation around it. */
  predicate Standalone(o: Options, d: Sessions, r: Request) {
    o.gateway.enabled && (r.id == "" || !o.memory || HistoryOf(d, r.id, 1) == [])
  }

  /** What a hit leaves in memory: the turns, without the summary and facts that need a model. */
  function Remembered(o: Options, d: Sessions, r: Request, answer: string): Sessions {
    if !o.memory || r.id == "" then d else AppendedAll(o.store, d, Turns(r.id, r.query, answer))
  }

  /** What a graph run leaves in memory. */
  function GraphRemembered(o: Options, d: Sessions, r: Request, answer: string, reply: MemoryWriter.Reply): Sessions {
    if !o.memory || r.id == "" then d else Written(o.store, o.extract, d, r.id, r.query, answer, reply)
  }

  function MarkOf(kind: Kind): G.Mark {
    match kind
    case Exact => G.ExactHit
    case Semantic => G.SemanticHit
  }

  /** `_hit_metadata`: a cached entry in the shape a live run reports. */
  function HitReport(hit: Hit): Report {
    var e := hit.entry;
    var critique := G.Critique(e.sufficientContext, e.grounded, e.confidence, [], "");
    Report(G.Metadata(e.revisions, e.trace + [MarkOf(hit.kind)], None, Some(critique), e.citations, e.tools),
           Cached(hit.kind, hit.age, hit.key, hit.similarity))
  }

  function Final(o: Options, r: Request, w: Outside): G.RunState {
    G.Drive(o.graph, G.Start(r.query), w.replies).st
  }

  function LookedUp(o: Options, sqrt: real -> real, h: Host, r: Request, w: Outside): (Cache, Option<Hit>) {
    if Standalone(o, h.sessions, r) then LookupOf(o.gateway, sqrt, h.cache, r.query, w.lookupClock, w.lookupReply)
    else (h.cache, None)
  }

  function Deposited(o: Options, cache: Cache, standalone: bool, r: Request, answer: string, metadata: G.Metadata,
                     w: Outside): Cache
  {
    if standalone then StoreOf(o.gateway, o.lim, cache, r.query, answer, metadata, w.storeClock, w.storeReply).0
    else cache
  }

  /** `invoke` */
  function Invoked(o: Options, sqrt: real -> real, h: Host, r: Request, w: Outside): (Host, Response) {
    var standalone := Standalone(o, h.sessions, r);
    var (cache, hit) := LookedUp(o, sqrt, h, r, w);
    match hit
    case Some(found) =>
      (Host(cache, Remembered(o, h.sessions, r, found.entry.answer)),
       Response(r.id, found.entry.answer, HitReport(found)))
    case None =>
      var st := Final(o, r, w);
      var answer, metadata := st.answer.Text(), G.MetadataOf(st);
      (Host(Deposited(o, cache, standalone, r, answer, metadata, w),
            GraphRemembered(o, h.sessions, r, answer, w.memory)),
       Response(r.id, answer, Report(metadata, Live)))
  }

  /** What one finished node contributes to the stream. */
  function NodeEvents(node: G.Node, st: G.RunState): seq<Event> {
    [StageReached(InGraph(node))] +
    if node == G.Generator && st.answer.Text() != "" then [Drafted(InGraph(node), st.answer.Text())] else []
  }

  /** The stages and drafts of a run, in order. */
  function Progress(cfg: G.Settings, run: G.Run, replies: seq<G.Reply>): seq<Event>
    decreases |replies|
  {
    if run.node == G.End || replies == [] then []
    else
      var next := G.Step(cfg, run, replies[0]);
      NodeEvents(run.node, next.st) + Progress(cfg, next, replies[1..])
  }

  lemma OneNode(cfg: G.Settings, run: G.Run, replies: seq<G.Reply>)
    requires run.node != G.End && replies != []
    ensures var next := G.Step(cfg, run, replies[0]);
            && Progress(cfg, run, replies) == NodeEvents(run.node, next.st) + Progress(cfg, next, replies[1..])
            && G.Drive(cfg, run, replies) == G.Drive(cfg, next, replies[1..])
  {
  }

  function HitEvents(hit: Hit): seq<Event> {
    [StageReached(InCache), Drafted(InCache, hit.entry.answer), Result(hit.entry.answer, HitReport(hit))]
  }

  // ------------------------------------------------------ what a stream tells

  /** What `f` gives for each item, in order. */
  function Gathered<T, U>(items: seq<T>, f: T -> seq<U>): seq<U> {
    if items == [] then [] else f(items[0]) + Gathered(items[1..], f)
  }

  lemma {:induction false} GatheredBoth<T, U>(a: seq<T>, b: seq<T>, f: T -> seq<U>)
    ensures Gathered(a + b, f) == Gathered(a, f) + Gathered(b, f)
  {
    if a == [] {
      assert a + b == b;
    } else {
      assert (a + b)[1..] == a[1..] + b;
      GatheredBoth(a[1..], b, f);
    }
  }

  lemma GatheredOne<T, U>(x: T, rest: seq<T>, f: T -> seq<U>)
    ensures Gathered([x] + rest, f) == f(x) + Gathered(rest, f)
  {
    assert ([x] + rest)[1..] == rest;
  }

  function NodeOf(e: Event): seq<G.Node> {
    if e.StageReached? && e.stage.InGraph? then [e.stage.node] else []
  }

  function DraftOf(e: Event): seq<string> {
    if e.Drafted? then [e.answer] else []
  }

  /** The nodes whose stages an event stream reports, in order. */
  function NodesIn(events: seq<Event>): seq<G.Node> {
    Gathered(events, NodeOf)
  }

  function DraftsIn(events: seq<Event>): seq<string> {
    Gathered(events, DraftOf)
  }

  lemma OneTells(e: Event, rest: seq<Event>)
    ensures NodesIn([e] + rest) == NodeOf(e) + NodesIn(rest)
    ensures DraftsIn([e] + rest) == DraftOf(e) + DraftsIn(rest)
  {
    GatheredOne(e, rest, NodeOf);
    GatheredOne(e, rest, DraftOf);
  }

  lemma TellsBoth(a: seq<Event>, b: seq<Event>)
    ensures NodesIn(a + b) == NodesIn(a) + NodesIn(b) && DraftsIn(a + b) == DraftsIn(a) + DraftsIn(b)
  {
    GatheredBoth(a, b, NodeOf);
    GatheredBoth(a, b, DraftOf);
  }

  /** From `before` on, `drafts` say something each, and lead to what is finally written. */
  ghost predicate DraftsLead(drafts: seq<string>, before: string, after: string) {
    && (forall i :: 0 <= i < |drafts| ==> drafts[i] != "")
    && (after != "" ==> after == if drafts == [] then before else drafts[|drafts| - 1])
  }

  lemma OneMoreDraft(drafts: seq<string>, before: string, next: string, after: string)
    requires DraftsLead(drafts, next, after)
    ensures next != "" ==> DraftsLead([next] + drafts, before, after)
    ensures next == "" ==> DraftsLead(drafts, before, after)
  {
  }

  /** `events` tells the rest of a run that stands at `before` and leads to `after`: its
      nodes in order, and as the last draft, if any is to come, the answer it ends with. */
  ghost predicate TellsRest(events: seq<Event>, before: G.RunState, after: G.RunState) {
    && after.trace == before.trace + NodesIn(events)
    && DraftsLead(DraftsIn(events), before.answer.Text(), after.answer.Text())
  }

  lemma NodeTells(node: G.Node, st: G.RunState)
    ensures NodesIn(NodeEvents(node, st)) == [node]
    ensures DraftsIn(NodeEvents(node, st)) ==
            if node == G.Generator && st.answer.Text() != "" then [st.answer.Text()] else []
  {
    var events := NodeEvents(node, st);
    assert events == [events[0]] + events[1..];
    OneTells(events[0], events[1..]);
    if |events| > 1 {
      assert events[1..] == [events[1]] + [];
      OneTells(events[1], []);
    }
  }

  /** Only the generator drafts, and every node leaves its mark. */
  lemma StepWrites(cfg: G.Settings, run: G.Run, reply: G.Reply)
    requires run.node != G.End
    ensures var next := G.Step(cfg, run, reply);
            && next.st.trace == run.st.trace + [run.node]
            && (run.node != G.Generator ==> next.st.answer == run.st.answer)
  {
  }

  lemma Regrouped<T>(a: seq<T>, b: seq<T>, c: seq<T>)
    ensures (a + b) + c == a + (b + c) && [] + c == c
  {
  }

  lemma TellsMore(node: G.Node, before: G.RunState, next: G.RunState, after: G.RunState, events: seq<Event>)
    requires TellsRest(events, next, after) && next.trace == before.trace + [node]
    requires node != G.Generator ==> next.answer == before.answer
    ensures TellsRest(NodeEvents(node, next) + events, before, after)
  {
    NodeTells(node, next);
    TellsBoth(NodeEvents(node, next), events);
    Regrouped(before.trace, [node], NodesIn(events));
    Regrouped([], [], DraftsIn(events));
    OneMoreDraft(DraftsIn(events), before.answer.Text(), next.answer.Text(), after.answer.Text());
  }

  lemma {:induction false} ProgressTells(cfg: G.Settings, run: G.Run, replies: seq<G.Reply>)
    ensures TellsRest(Progress(cfg, run, replies), run.st, G.Drive(cfg, run, replies).st)
    decreases |replies|
  {
    if run.node != G.End && replies != [] {
      var next := G.Step(cfg, run, replies[0]);
      OneNode(cfg, run, replies);
      StepWrites(cfg, run, replies[0]);
      ProgressTells(cfg, next, replies[1..]);
      TellsMore(run.node, run.st, next.st, G.Drive(cfg, next, replies[1..]).st, Progress(cfg, next, replies[1..]));
    }
  }

  /** The stream of a live run: every node that ran, in order, and as its last draft the answer. */
  ghost predicate Tells(events: seq<Event>, st: G.RunState) {
    TellsRest(events, G.InitialState(st.query), st)
  }

  lemma ResultTellsNothing(result: Event)
    requires result.Result?
    ensures NodesIn([result]) == [] && DraftsIn([result]) == []
  {
    OneTells(result, []);
    assert [result] + [] == [result];
  }

  lemma RunTells(cfg: G.Settings, query: string, replies: seq<G.Reply>, result: Event)
    requires result.Result?
    ensures Tells(Progress(cfg, G.Start(query), replies) + [result], G.Drive(cfg, G.Start(query), replies).st)
  {
    ProgressTells(cfg, G.Start(query), replies);
    TellsBoth(Progress(cfg, G.Start(query), replies), [result]);
    ResultTellsNothing(result);
  }

  // ----------------------------------------------------- the same, as methods

  class AgenticRagAgent {
    const cfg: G.Settings

    constructor (cfg: G.Settings)
      ensures this.cfg == cfg
    {
      this.cfg := cfg;
    }

    /** The run as it happens: each stage, each draft, then the result. */
    method Stream(query: string, replies: seq<G.Reply>) returns (events: seq<Event>)
      ensures var st := G.Drive(cfg, G.Start(query), replies).st;
              events == Progress(cfg, G.Start(query), replies)
                + [Result(st.answer.Text(), Report(G.MetadataOf(st), Live))]
      ensures Tells(events, G.Drive(cfg, G.Start(query), replies).st)
    {
      var run, i := G.Start(query), 0;
      events := [];
      while run.node != G.End && i < |replies|
        invariant 0 <= i <= |replies|
        invariant G.Drive(cfg, run, replies[i..]) == G.Drive(cfg, G.Start(query), replies)
        invariant events + Progress(cfg, run, replies[i..]) == Progress(cfg, G.Start(query), replies)
      {
        OneNode(cfg, run, replies[i..]);
        assert replies[i..][1..] == replies[i + 1..];
        var node := run.node;
        run := G.Step(cfg, run, replies[i]);
        events := events + NodeEvents(node, run.st);
        i := i + 1;
      }
      events := events + [Result(run.st.answer.Text(), Report(G.MetadataOf(run.st), Live))];
      RunTells(cfg, query, replies, events[|events| - 1]);
    }

    method Invoke(query: string, replies: seq<G.Reply>) returns (st: G.RunState)
      ensures st == G.Drive(cfg, G.Start(query), replies).st
    {
      var run, i := G.Start(query), 0;
      while run.node != G.End && i < |replies|
        invariant 0 <= i <= |replies|
        invariant G.Drive(cfg, run, replies[i..]) == G.Drive(cfg, G.Start(query), replies)
      {
        assert replies[i..][1..] == replies[i + 1..];
        run := G.Step(cfg, run, replies[i]);
        i := i + 1;
      }
      st := run.st;
    }
  }

  class CachedRagAgent {
    const o: Options
    const agent: AgenticRagAgent
    const gateway: CacheGateway
    const memory: InMemoryStore

    constructor (o: Options, agent: AgenticRagAgent, gateway: CacheGateway, memory: InMemoryStore)
      requires agent.cfg == o.graph && gateway.cfg == o.gateway && gateway.backend.lim == o.lim && memory.cfg == o.store
      requires gateway.Ready() && memory.Wf()
      ensures this.o == o && this.agent == agent && this.gateway == gateway && this.memory == memory && Ready()
    {
      this.o, this.agent, this.gateway, this.memory := o, agent, gateway, memory;
    }

    ghost predicate Ready()
      reads gateway, gateway.backend, memory
    {
      && agent.cfg == o.graph && gateway.cfg == o.gateway && gateway.backend.lim == o.lim && memory.cfg == o.store
      && gateway.Ready() && memory.Wf()
    }

    ghost function Contents(): Host
      reads gateway, gateway.backend, gateway.knowledgeBase, memory
    {
      Host(gateway.Contents(), memory.sessions)
    }

    method IsStandalone(r: Request) returns (standalone: bool)
      ensures standalone == Standalone(o, memory.sessions, r)
      requires gateway.cfg == o.gateway
    {
      if !gateway.cfg.enabled {
        return false;
      }
      if r.id == "" || !o.memory {
        return true;
      }
      var history := memory.History(r.id, 1);
      return history == [];
    }

    method LookUp(sqrt: real -> real, standalone: bool, r: Request, w: Outside) returns (hit: Option<Hit>)
      requires Ready() && standalone == Standalone(o, memory.sessions, r)
      modifies gateway, gateway.backend, gateway.knowledgeBase
      ensures Ready() && memory.sessions == old(memory.sessions)
      ensures gateway.Contents() == LookedUp(o, sqrt, old(Contents()), r, w).0
      ensures hit == LookedUp(o, sqrt, old(Contents()), r, w).1
    {
      if !standalone {
        return None;
      }
      hit := gateway.Lookup(sqrt, r.query, w.lookupClock, w.lookupReply);
    }

    method Remember(r: Request, answer: string)
      requires Ready()
      modifies memory
      ensures Ready() && memory.sessions == Remembered(o, old(memory.sessions), r, answer)
    {
      if !o.memory || r.id == "" {
        return;
      }
      AppendExchange(memory, r.id, r.query, answer);
    }

    /** The part of a graph run that outlives it. */
    method WriteBack(r: Request, answer: string, reply: MemoryWriter.Reply)
      requires Ready()
      modifies memory
      ensures Ready() && memory.sessions == GraphRemembered(o, old(memory.sessions), r, answer, reply)
    {
      if !o.memory || r.id == "" {
        return;
      }
      WriteMemory(memory, o.extract, r.id, r.query, answer, reply);
    }

    method Deposit(standalone: bool, r: Request, answer: string, metadata: G.Metadata, w: Outside)
      requires Ready()
      modifies gateway, gateway.backend, gateway.knowledgeBase
      ensures Ready() && gateway.Contents() == Deposited(o, old(gateway.Contents()), standalone, r, answer, metadata, w)
      ensures memory.sessions == old(memory.sessions)
    {
      if standalone {
        var stored := gateway.Store(r.query, answer, metadata, w.storeClock, w.storeReply);
      }
    }

    method Invoke(sqrt: real -> real, r: Request, w: Outside) returns (response: Response)
      requires Ready()
      modifies gateway, gateway.backend, gateway.knowledgeBase, memory
      ensures Ready() && Contents() == Invoked(o, sqrt, old(Contents()), r, w).0
      ensures response == Invoked(o, sqrt, old(Contents()), r, w).1
    {
      var standalone := IsStandalone(r);
      var hit := LookUp(sqrt, standalone, r, w);
      if hit.Some? {
        Remember(r, hit.value.entry.answer);
        return Response(r.id, hit.value.entry.answer, HitReport(hit.value));
      }
      var st := agent.Invoke(r.query, w.replies);
      WriteBack(r, st.answer.Text(), w.memory);
      Deposit(standalone, r, st.answer.Text(), G.MetadataOf(st), w);
      return Response(r.id, st.answer.Text(), Report(G.MetadataOf(st), Live));
    }

    /** Draining the stream leaves what `Invoke` leaves, and ends in what it returns. */
    method StreamEvents(sqrt: real -> real, r: Request, w: Outside) returns (events: seq<Event>)
      requires Ready()
      modifies gateway, gateway.backend, gateway.knowledgeBase, memory
      ensures Ready() && Contents() == Invoked(o, sqrt, old(Contents()), r, w).0
      ensures Streams(events, Invoked(o, sqrt, old(Contents()), r, w).1, Final(o, r, w))
    {
      var standalone := IsStandalone(r);
      var hit := LookUp(sqrt, standalone, r, w);
      if hit.Some? {
        Remember(r, hit.value.entry.answer);
        HitStreams(r, hit.value, Final(o, r, w));
        return HitEvents(hit.value);
      }
      events := StreamLive(standalone, r, w);
    }

    /** A live run, forwarded as it happens; its terminal event comes after the store. */
    method StreamLive(standalone: bool, r: Request, w: Outside) returns (events: seq<Event>)
      requires Ready()
      modifies gateway, gateway.backend, gateway.knowledgeBase, memory
      ensures Ready()
      ensures var st := Final(o, r, w);
              && gateway.Contents()
                == Deposited(o, old(gateway.Contents()), standalone, r, st.answer.Text(), G.MetadataOf(st), w)
              && memory.sessions == GraphRemembered(o, old(memory.sessions), r, st.answer.Text(), w.memory)
              && Streams(events, Response(r.id, st.answer.Text(), Report(G.MetadataOf(st), Live)), st)
    {
      var inner := agent.Stream(r.query, w.replies);
      ProgressHasNoResult(o.graph, G.Start(r.query), w.replies);
      var forwarded, final := Forwarded(inner);
      events := forwarded + [final];
      assert events == inner;
      WriteBack(r, final.answer, w.memory);
      Deposit(standalone, r, final.answer, final.report.metadata, w);
    }
  }

  /** Everything but the terminal event is passed on as it comes. */
  method Forwarded(events: seq<Event>) returns (out: seq<Event>, final: Event)
    requires events != [] && events[|events| - 1].Result?
    requires forall i :: 0 <= i < |events| - 1 ==> !events[i].Result?
    ensures out == events[..|events| - 1] && final == events[|events| - 1]
  {
    out, final := [], events[|events| - 1];
    for i := 0 to |events|
      invariant out == if i < |events| then events[..i] else events[..|events| - 1]
      invariant final == events[|events| - 1]
    {
      if !events[i].Result? {
        out := out + [events[i]];
      } else {
        final := events[i];
      }
    }
  }

  /** Exactly one result, the last event, with the response's answer and report. */
  ghost predicate EndsIn(events: seq<Event>, response: Response) {
    && events != [] && events[|events| - 1] == Result(response.answer, response.report)
    && forall i :: 0 <= i < |events| - 1 ==> !events[i].Result?
  }

  /** Before the result a live run tells every node it went through, a hit only its answer. */
  ghost predicate Streams(events: seq<Event>, response: Response, st: G.RunState) {
    && EndsIn(events, response)
    && if response.report.via.Live? then Tells(events, st)
       else NodesIn(events) == [] && DraftsIn(events) == [response.answer]
  }

  lemma HitStreams(r: Request, hit: Hit, st: G.RunState)
    ensures Streams(HitEvents(hit), Response(r.id, hit.entry.answer, HitReport(hit)), st)
  {
    var events := HitEvents(hit);
    OneTells(events[0], events[1..]);
    OneTells(events[1], events[2..]);
    OneTells(events[2], []);
    assert events == [events[0]] + events[1..];
    assert events[1..] == [events[1]] + events[2..] && events[2..] == [events[2]] + [];
  }

  ghost predicate Running(events: seq<Event>) {
    forall i :: 0 <= i < |events| ==> !events[i].Result?
  }

  lemma StillRunning(a: seq<Event>, b: seq<Event>)
    requires Running(a) && Running(b)
    ensures Running(a + b)
  {
  }

  lemma NodeStillRunning(node: G.Node, st: G.RunState)
    ensures Running(NodeEvents(node, st))
  {
  }

  lemma {:induction false} ProgressHasNoResult(cfg: G.Settings, run: G.Run, replies: seq<G.Reply>)
    ensures Running(Progress(cfg, run, replies))
    decreases |replies|
  {
    if run.node != G.End && replies != [] {
      var next := G.Step(cfg, run, replies[0]);
      OneNode(cfg, run, replies);
      ProgressHasNoResult(cfg, next, replies[1..]);
      NodeStillRunning(run.node, next.st);
      StillRunning(NodeEvents(run.node, next.st), Progress(cfg, next, replies[1..]));
    }
  }

  // ------------------------------------------------------------ what is served

  /** What a hit reports when `stored` was kept: the same, but for the plan, the
      critic's words, and the mark at the end of the trace. */
  ghost predicate Reports(kind: Kind, stored: G.Metadata, shown: G.Metadata)
    requires stored.critique.Some?
  {
    && shown.trace == stored.trace + [MarkOf(kind)]
    && shown.plan == None
    && shown == stored.(
         trace := shown.trace,
         plan := None,
         critique := Some(stored.critique.value.(claims := [], feedback := "")))
  }

  /** What the cache serves is what was stored: the answer, the citations, the
      tools, and the verdict the gate admitted it with. */
  lemma ServedAsStored(minConfidence: real, query: string, answer: string, metadata: G.Metadata, versions: Versions,
                       embedding: Vector, now: real, ttl: real, hit: Hit)
    requires G.Refuse(minConfidence, answer, metadata) == None
    requires hit.entry == EntryOf(query, QueryKeys.Normalize(query), answer, metadata, versions, embedding, now, ttl)
    ensures hit.entry.answer == answer && Reports(hit.kind, metadata, HitReport(hit).metadata)
    ensures G.Refuse(minConfidence, hit.entry.answer, HitReport(hit).metadata) == None
  {
  }

  lemma LiveRun(o: Options, sqrt: real -> real, h: Host, r: Request, w: Outside)
    requires Standalone(o, h.sessions, r) && LookedUp(o, sqrt, h, r, w).1 == None
    ensures var cache, st := LookedUp(o, sqrt, h, r, w).0, Final(o, r, w);
            var answer, metadata := st.answer.Text(), G.MetadataOf(st);
            var (host, response) := Invoked(o, sqrt, h, r, w);
            && response == Response(r.id, answer, Report(metadata, Live))
            && host.cache
               == StoreOf(o.gateway, o.lim, cache, r.query, answer, metadata, w.storeClock, w.storeReply).0
  {
  }

  lemma FromTheCache(o: Options, sqrt: real -> real, h: Host, r: Request, w: Outside)
    ensures var hit, response := LookedUp(o, sqrt, h, r, w).1, Invoked(o, sqrt, h, r, w).1;
            && (response.report.via.Cached? <==> hit.Some?)
            && (hit.Some? ==> response == Response(r.id, hit.value.entry.answer, HitReport(hit.value)))
  {
  }

  /** The second lookup, in the cache the first one's store left. */
  lemma HitAgain(o: Options, sqrt: real -> real, cache: Cache, r: Request, answer: string, metadata: G.Metadata,
                 w: Outside, host: Host, again: Request, later: Outside)
    returns (versions: Versions, embedding: Vector)
    requires Valid(cache.store.entries) && o.lim.maxEntries > 0 && Forward(w.storeClock) && Forward(later.lookupClock)
    requires var (after, kept) :=
               StoreOf(o.gateway, o.lim, cache, r.query, answer, metadata, w.storeClock, w.storeReply);
             kept && host.cache == after
    requires QueryKeys.Normalize(again.query) == QueryKeys.Normalize(r.query) && Standalone(o, host.sessions, again)
    ensures G.Refuse(o.gateway.minConfidence, answer, metadata) == None
    ensures var hit, at := LookedUp(o, sqrt, host, again, later).1, w.storeClock(1);
            && (hit.Some? && hit.value.kind == Exact <==> later.lookupClock(2) < at + o.gateway.ttl)
            && (hit.Some? && hit.value.kind == Exact ==>
                  hit.value.entry == EntryOf(r.query, QueryKeys.Normalize(r.query), answer, metadata, versions,
                                             embedding, at, o.gateway.ttl))
  {
    versions := Resolved(o.gateway, cache, w.storeClock(0)).1;
    embedding := if o.gateway.semantic then w.storeReply.value else [];
    StoredIsFound(o.gateway, o.lim, sqrt, cache, r.query, answer, metadata, w.storeClock, w.storeReply,
                  again.query, later.lookupClock, later.lookupReply);
  }

  /** A question answered by the graph and admitted by the gate is an exact hit when
      it is next asked on its own, in any wording of the same normal form and any
      session, if and only if the entry is still live; the answer is then the same
      and the report what was reported the first time. */
  lemma AskedAgain(o: Options, sqrt: real -> real, h: Host, r: Request, w: Outside, again: Request, later: Outside)
    requires Valid(h.cache.store.entries) && o.lim.maxEntries > 0 && Forward(w.storeClock) && Forward(later.lookupClock)
    requires Standalone(o, h.sessions, r) && LookedUp(o, sqrt, h, r, w).1 == None
    requires var st := Final(o, r, w); G.Refuse(o.gateway.minConfidence, st.answer.Text(), G.MetadataOf(st)) == None
    requires QueryKeys.Normalize(r.query) != "" && (o.gateway.semantic ==> w.storeReply.Some?)
    requires QueryKeys.Normalize(again.query) == QueryKeys.Normalize(r.query)
    requires Standalone(o, Invoked(o, sqrt, h, r, w).0.sessions, again)
    ensures var (host, first) := Invoked(o, sqrt, h, r, w);
            var second := Invoked(o, sqrt, host, again, later).1;
            var found := second.report.via.Cached? && second.report.via.kind == Exact;
            && (found <==> later.lookupClock(2) < w.storeClock(1) + o.gateway.ttl)
            && first.report.metadata.critique.Some?
            && (found ==> second.id == again.id && second.answer == first.answer
                          && Reports(Exact, first.report.metadata, second.report.metadata))
  {
    var st, cache := Final(o, r, w), LookedUp(o, sqrt, h, r, w).0;
    var answer, metadata := st.answer.Text(), G.MetadataOf(st);
    LiveRun(o, sqrt, h, r, w);
    LookupKeepsValid(o.gateway, sqrt, h.cache, r.query, w.lookupClock, w.lookupReply);
    var host := Invoked(o, sqrt, h, r, w).0;
    var versions, embedding := HitAgain(o, sqrt, cache, r, answer, metadata, w, host, again, later);
    FromTheCache(o, sqrt, host, again, later);
    var hit := LookedUp(o, sqrt, host, again, later).1;
    if hit.Some? && hit.value.kind == Exact {
      ServedAsStored(o.gateway.minConfidence, r.query, answer, metadata, versions, embedding, w.storeClock(1),
                     o.gateway.ttl, hit.value);
    }
  }

  // ---------------------------------------------------- what was said last

  /** The newest turns are those of the exchange that was just recorded. */
  ghost predicate EndsWithExchange(d: Sessions, id: string, query: string, answer: string) {
    if answer != "" then HistoryOf(d, id, 2) == [Record(id, User, query), Record(id, Assistant, answer)]
    else HistoryOf(d, id, 1) == [Record(id, User, query)]
  }

  lemma ShownIsTheEnd(cfg: MemoryStore.Settings, before: Sessions, d: Sessions, id: string, query: string,
                      answer: string, t: seq<Record>)
    requires ShowsNow(cfg, before, d, id, t + Sides(id, query, answer)) && query != "" && cfg.window >= 2
    ensures EndsWithExchange(d, id, query, answer)
  {
    LastEnds(t, Sides(id, query, answer), cfg.window);
  }

  lemma ServedIsShown(o: Options, sqrt: real -> real, h: Host, r: Request, w: Outside, t: seq<Record>)
    requires ShowsNow(o.store, h.sessions, h.sessions, r.id, t) && o.memory && r.id != ""
    ensures var (after, response) := Invoked(o, sqrt, h, r, w);
            ShowsNow(o.store, h.sessions, after.sessions, r.id, t + Sides(r.id, r.query, response.answer))
  {
    match LookedUp(o, sqrt, h, r, w).1 {
      case Some(found) => SidesShow(o.store, h.sessions, r.id, r.query, found.entry.answer, t);
      case None =>
        WrittenShows(o.store, o.extract, h.sessions, r.id, r.query, Final(o, r, w).answer.Text(), w.memory, t);
    }
  }

  // -------------------------------------------------------- conversations

  /** Every retained session has recorded a turn. */
  ghost predicate Talked(cfg: MemoryStore.Settings, d: Sessions) {
    Cadence.Bounds(cfg, d) && forall id :: id in d.items ==> Cadence.Kept(cfg, d.items[id]) && d.items[id].recorded > 0
  }

  /** Using session `id` forgets no session, unless `id` is new and the table full. */
  ghost predicate Forgets(cfg: MemoryStore.Settings, d: Sessions, e: Sessions, id: string) {
    (id in d.items || Size(d) < cfg.maxSessions) ==> forall x :: x in d.items ==> x in e.items
  }

  /** `e` is `d`, or `d` after session `id` was used and recorded something. */
  ghost predicate Talks(cfg: MemoryStore.Settings, d: Sessions, e: Sessions, id: string) {
    Talked(cfg, e) && (e == d || (id in e.items && Forgets(cfg, d, e, id)))
  }

  lemma TalksThenTalks(cfg: MemoryStore.Settings, d: Sessions, e: Sessions, f: Sessions, id: string)
    requires Talks(cfg, d, e, id) && Talks(cfg, e, f, id)
    ensures Talks(cfg, d, f, id)
  {
  }

  lemma TouchedForgets(cfg: MemoryStore.Settings, d: Sessions, id: string)
    requires Cadence.Bounds(cfg, d)
    ensures Forgets(cfg, d, Touched(cfg, d, id), id)
  {
    TouchedEffect(cfg, d, id);
    PutLastValid(d, id, FRESH);
  }

  lemma UpdateTalks(cfg: MemoryStore.Settings, d: Sessions, id: string, s: Session)
    requires Talked(cfg, d) && Cadence.Kept(cfg, s) && s.recorded > 0
    ensures Talks(cfg, d, Updated(Touched(cfg, d, id), id, s), id)
  {
    TouchedForgets(cfg, d, id);
    Cadence.UpdateEffect(cfg, d, id, s);
  }

  lemma {:induction false} AppendTalks(cfg: MemoryStore.Settings, d: Sessions, id: string, records: seq<Record>)
    requires Talked(cfg, d) && forall i :: 0 <= i < |records| ==> records[i].sessionId == id
    ensures Talks(cfg, d, AppendedAll(cfg, d, records), id)
    ensures records != [] ==> id in AppendedAll(cfg, d, records).items
  {
    if records != [] {
      var before, last := records[..|records| - 1], records[|records| - 1];
      AppendTalks(cfg, d, id, before);
      var e := AppendedAll(cfg, d, before);
      UpdateTalks(cfg, e, id, WithTurn(cfg, SessionOf(e, id), last));
      TalksThenTalks(cfg, d, e, AppendedAll(cfg, d, records), id);
    }
  }

  lemma SummaryTalks(cfg: MemoryStore.Settings, d: Sessions, id: string, reply: MemoryWriter.Reply)
    requires Talked(cfg, d)
    ensures Talks(cfg, d, MaybeSummarised(cfg, d, id, reply), id)
  {
    var e := MaybeSummarised(cfg, d, id, reply);
    if PendingOf(d, id) >= cfg.summaryAfter && reply.summary.Some? {
      var s := SessionOf(d, id);
      UpdateTalks(cfg, d, id, s.(summary := Strip(reply.summary.value), summarised := s.recorded));
    }
  }

  lemma FactsTalk(cfg: MemoryStore.Settings, extract: bool, d: Sessions, id: string, query: string,
                  reply: MemoryWriter.Reply)
    requires Talked(cfg, d) && (query != "" ==> id in d.items)
    ensures Talks(cfg, d, MaybeExtracted(cfg, extract, d, id, query, reply), id)
  {
    if extract && query != "" && reply.facts.Some? && reply.facts.value != [] {
      var s := SessionOf(d, id);
      UpdateTalks(cfg, d, id, s.(facts := Merged(s.facts, reply.facts.value, cfg.maxUserFacts)));
    }
  }

  lemma ExchangeTalks(cfg: MemoryStore.Settings, d: Sessions, id: string, query: string, answer: string)
    requires Talked(cfg, d)
    ensures Talks(cfg, d, AppendedAll(cfg, d, Turns(id, query, answer)), id)
    ensures query != "" ==> id in AppendedAll(cfg, d, Turns(id, query, answer)).items
  {
    Cadence.TwoTurns(id, query, answer);
    AppendTalks(cfg, d, id, Turns(id, query, answer));
  }

  lemma WrittenTalks(cfg: MemoryStore.Settings, extract: bool, d: Sessions, id: string, query: string, answer: string,
                     reply: MemoryWriter.Reply)
    requires Talked(cfg, d)
    ensures Talks(cfg, d, Written(cfg, extract, d, id, query, answer, reply), id)
    ensures query != "" ==> id in Written(cfg, extract, d, id, query, answer, reply).items
  {
    var e := AppendedAll(cfg, d, Turns(id, query, answer));
    var f := MaybeSummarised(cfg, e, id, reply);
    ExchangeTalks(cfg, d, id, query, answer);
    SummaryTalks(cfg, e, id, reply);
    FactsTalk(cfg, extract, f, id, query, reply);
    TalksThenTalks(cfg, d, e, f, id);
    TalksThenTalks(cfg, d, f, Written(cfg, extract, d, id, query, answer, reply), id);
  }

  /** What can happen to the service: a call is served, or a session is cleared. */
  datatype Happening = Serve(r: Request, w: Outside) | Forget(id: string)

  function After(o: Options, sqrt: real -> real, h: Host, e: Happening): Host {
    match e
    case Serve(r, w) => Invoked(o, sqrt, h, r, w).0
    case Forget(id) => h.(sessions := Without(h.sessions, id))
  }

  function Lived(o: Options, sqrt: real -> real, h: Host, events: seq<Happening>): Host {
    if events == [] then h else After(o, sqrt, Lived(o, sqrt, h, events[..|events| - 1]), events[|events| - 1])
  }

  lemma ServingTalks(o: Options, sqrt: real -> real, h: Host, r: Request, w: Outside)
    requires Talked(o.store, h.sessions)
    ensures Talks(o.store, h.sessions, Invoked(o, sqrt, h, r, w).0.sessions, r.id)
    ensures o.memory && r.id != "" && r.query != "" ==> r.id in Invoked(o, sqrt, h, r, w).0.sessions.items
  {
    var (_, hit) := LookedUp(o, sqrt, h, r, w);
    if o.memory && r.id != "" {
      match hit {
        case Some(found) => ExchangeTalks(o.store, h.sessions, r.id, r.query, found.entry.answer);
        case None =>
          WrittenTalks(o.store, o.extract, h.sessions, r.id, r.query, Final(o, r, w).answer.Text(), w.memory);
      }
    }
  }

  lemma {:induction false} TalkedAlways(o: Options, sqrt: real -> real, h: Host, events: seq<Happening>)
    requires Talked(o.store, h.sessions)
    ensures Talked(o.store, Lived(o, sqrt, h, events).sessions)
  {
    if events != [] {
      var before, last := events[..|events| - 1], events[|events| - 1];
      TalkedAlways(o, sqrt, h, before);
      var now := Lived(o, sqrt, h, before);
      match last {
        case Serve(r, w) => ServingTalks(o, sqrt, now, r, w);
        case Forget(id) => WithoutValid(now.sessions, id);
      }
    }
  }

  /** In every run, a question with a session is standalone exactly when that
      session is not retained; otherwise the call leaves the cache untouched. A
      session with a turn stays until it is cleared, or a new one finds the table full. */
  lemma NeverMidConversation(o: Options, sqrt: real -> real, cache: Cache, events: seq<Happening>, r: Request,
                             w: Outside)
    requires Cadence.Configured(o.store) && o.gateway.enabled && o.memory && r.id != ""
    ensures var h := Lived(o, sqrt, Host(cache, Empty()), events);
            var after := Invoked(o, sqrt, h, r, w).0;
            && (Standalone(o, h.sessions, r) <==> r.id !in h.sessions.items)
            && (r.id in h.sessions.items ==> after.cache == h.cache)
            && (r.query != "" ==> r.id in after.sessions.items)
            && (forall id :: id in h.sessions.items && id !in after.sessions.items ==>
                  r.id !in h.sessions.items && Size(h.sessions) == o.store.maxSessions)
  {
    TalkedAlways(o, sqrt, Host(cache, Empty()), events);
    var h := Lived(o, sqrt, Host(cache, Empty()), events);
    ServingTalks(o, sqrt, h, r, w);
    if r.id in h.sessions.items {
      assert |h.sessions.items[r.id].turns| > 0;
      assert |HistoryOf(h.sessions, r.id, 1)| == 1;
    }
  }

  /** In every run, served live or from the cache, a question with a session is what
      the session ends with: the user's turn, then the assistant's with the answer given. */
  lemma ConversationRecorded(o: Options, sqrt: real -> real, cache: Cache, events: seq<Happening>, r: Request,
                             w: Outside)
    requires Cadence.Configured(o.store) && o.store.window >= 2 && o.memory && r.id != "" && r.query != ""
    ensures var h := Lived(o, sqrt, Host(cache, Empty()), events);
            var (after, response) := Invoked(o, sqrt, h, r, w);
            EndsWithExchange(after.sessions, r.id, r.query, response.answer)
  {
    TalkedAlways(o, sqrt, Host(cache, Empty()), events);
    var h := Lived(o, sqrt, Host(cache, Empty()), events);
    var t := SomethingWasSaid(o.store, SessionOf(h.sessions, r.id));
    ServedIsShown(o, sqrt, h, r, w, t);
    var (after, response) := Invoked(o, sqrt, h, r, w);
    ShownIsTheEnd(o.store, h.sessions, after.sessions, r.id, r.query, response.answer, t);
  }
}
