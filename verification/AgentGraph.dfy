/** The agentic RAG graph: node updates and routers.

    Every model, tool and retrieval call is an oracle: a node takes the reply it
    got (or `None` for a `DependencyError`), and the theorems hold for all of them.
 */
module AgentGraph {
  import opened Wrappers
  import opened Text

  // ------------------------------------------------------------- artefacts

  datatype Document = Document(id: string, content: string, metadata: map<string, string>)

  datatype ScoredDocument = ScoredDocument(document: Document, score: real)

  datatype Analysis = Analysis(normalisedQuery: string) {
    function SearchText(fallback: string): string {
      var text := Strip(normalisedQuery);
      if text != "" then text else fallback
    }
  }

  datatype ToolCall = ToolCall(tool: string, input: string)

  /** How one tool call went. */
  datatype ToolOutcome = Unknown | TimedOut | Rejected(reason: string) | Crashed(reason: string) | Output(text: string)

  /** What reaches the state: never an exception, always a result that says whether it succeeded. */
  datatype ToolResult = ToolResult(call: ToolCall, outcome: ToolOutcome) {
    predicate Ok() {
      outcome.Output?
    }
  }

  datatype Plan = Plan(retrievalNeeded: bool, searchText: string, toolsNeeded: bool, toolCalls: seq<ToolCall>) {
    predicate WantsTools() {
      toolCalls != [] && toolsNeeded
    }
  }

  /** No draft yet, a fixed refusal, or what the model wrote. */
  datatype Answer = Undrafted | NothingFound | Unreachable | Written(text: string) {
    function Text(): string {
      match this
      case Undrafted => ""
      case NothingFound => "I could not find anything in the indexed documents that answers this question."
      case Unreachable => "The answer could not be generated because the language model was unreachable."
      case Written(text) => text
    }
  }

  datatype Critique = Critique(
    sufficientContext: bool,
    grounded: bool,
    confidence: real,
    claims: seq<string>,
    feedback: string)
  {
    predicate Accepts(minConfidence: real) {
      sufficientContext && grounded && confidence >= minConfidence
    }
  }

  datatype Node =
    | MemoryLoader | Analyzer | Planner | Tools | Retriever | Generator | Critic | MemoryWriter
    | End

  /** The state the nodes share; `trace` records the node that wrote each fragment. */
  datatype RunState = RunState(
    query: string,
    analysis: Option<Analysis>,
    plan: Option<Plan>,
    toolResults: seq<ToolResult>,
    documents: seq<ScoredDocument>,
    answer: Answer,
    critique: Option<Critique>,
    revisions: nat,
    trace: seq<Node>)

  datatype Settings = Settings(maxRevisions: nat, minConfidence: real, maxContextDocuments: nat, toolsEnabled: bool,
                               maxToolCalls: nat)

  /** What the outside world answers during one node. */
  datatype Reply = Reply(
    analysis: Option<Analysis>,
    plan: Option<Plan>,
    outcomes: seq<ToolOutcome>,
    found: Option<seq<ScoredDocument>>,
    answer: Option<string>,
    critique: Option<Critique>)

  function InitialState(query: string): RunState {
    RunState(query, None, None, [], [], Undrafted, None, 0, [])
  }

  // ------------------------------------------------------------ node updates

  function Analyse(st: RunState, reply: Reply): RunState {
    st.(analysis := Some(match reply.analysis case Some(a) => a case None => Analysis(st.query)))
  }

  /** Guarantee the plan carries something searchable. */
  function EnsureSearchText(plan: Plan, analysis: Analysis, query: string): Plan {
    if Strip(plan.searchText) != "" then plan else plan.(searchText := analysis.SearchText(query))
  }

  /** The planner is the only re-entry point, so it also counts the retry. */
  function MakePlan(st: RunState, reply: Reply): RunState {
    var analysis := match st.analysis case Some(a) => a case None => Analysis(st.query);
    var plan := match reply.plan
      case Some(p) => p
      case None => Plan(true, analysis.SearchText(st.query), false, []);
    st.(plan := Some(EnsureSearchText(plan, analysis, st.query)),
        revisions := if st.critique.Some? then st.revisions + 1 else st.revisions)
  }

  function RunTools(cfg: Settings, st: RunState, reply: Reply): RunState {
    var calls := match st.plan case Some(p) => p.toolCalls case None => [];
    if !cfg.toolsEnabled || calls == [] then st.(toolResults := [])
    else
      var allowed := if |calls| > cfg.maxToolCalls then calls[..cfg.maxToolCalls] else calls;
      st.(toolResults := seq(|allowed|, i requires 0 <= i < |allowed| =>
            ToolResult(allowed[i], if i < |reply.outcomes| then reply.outcomes[i] else Unknown)))
  }

  function Retrieve(st: RunState, reply: Reply): RunState {
    if st.plan == None || !st.plan.value.retrievalNeeded then st.(documents := [])
    else st.(documents := match reply.found case Some(found) => found case None => [])
  }

  /** Documents and successful tool calls are the only grounds for an answer. */
  predicate Grounds(documents: seq<ScoredDocument>, results: seq<ToolResult>) {
    documents != [] || exists i :: 0 <= i < |results| && results[i].Ok()
  }

  predicate HasContext(st: RunState) {
    Grounds(st.documents, st.toolResults)
  }

  function Generate(st: RunState, reply: Reply): RunState {
    if !HasContext(st) then st.(answer := NothingFound)
    else st.(answer := match reply.answer case Some(text) => Written(Strip(text)) case None => Unreachable)
  }

  const EMPTY_CONTEXT_FEEDBACK := "Retrieval returned nothing. Broaden the search: drop metadata filters, "
    + "raise top_k, or search with different terms."

  const CRITIC_UNAVAILABLE := "critic unavailable"

  function Criticise(st: RunState, reply: Reply): RunState {
    st.(critique := Some(
      if !HasContext(st) then Critique(false, true, 1.0, [], EMPTY_CONTEXT_FEEDBACK)
      else match reply.critique case Some(c) => c case None => Critique(true, true, 0.0, [], CRITIC_UNAVAILABLE)))
  }

  // ----------------------------------------------------------------- routers

  function PlanRouter(st: RunState): Node {
    match st.plan
    case None => Retriever
    case Some(plan) => if plan.WantsTools() then Tools else if plan.retrievalNeeded then Retriever else Generator
  }

  function AfterToolsRouter(st: RunState): Node {
    if st.plan == None || st.plan.value.retrievalNeeded then Retriever else Generator
  }

  function CriticRouter(cfg: Settings, st: RunState): Node {
    match st.critique
    case None => MemoryWriter
    case Some(c) =>
      if c.Accepts(cfg.minConfidence) then MemoryWriter
      else if !c.sufficientContext && st.revisions < cfg.maxRevisions then Planner
      else MemoryWriter
  }

  // -------------------------------------------------------------------- runs

  datatype Run = Run(node: Node, st: RunState)

  function Start(query: string): Run {
    Run(MemoryLoader, InitialState(query))
  }

  function Update(cfg: Settings, node: Node, st: RunState, reply: Reply): RunState {
    match node
    case Analyzer => Analyse(st, reply)
    case Planner => MakePlan(st, reply)
    case Tools => RunTools(cfg, st, reply)
    case Retriever => Retrieve(st, reply)
    case Generator => Generate(st, reply)
    case Critic => Criticise(st, reply)
    case _ => st
  }

  function Route(cfg: Settings, node: Node, st: RunState): Node {
    match node
    case MemoryLoader => Analyzer
    case Analyzer => Planner
    case Planner => PlanRouter(st)
    case Tools => AfterToolsRouter(st)
    case Retriever => Generator
    case Generator => Critic
    case Critic => CriticRouter(cfg, st)
    case MemoryWriter => End
    case End => End
  }

  /** Run one node and follow its edge. */
  function Step(cfg: Settings, r: Run, reply: Reply): Run
    requires r.node != End
  {
    var st := Update(cfg, r.node, r.st, reply);
    Run(Route(cfg, r.node, st), st.(trace := st.trace + [r.node]))
  }

  /** The run after as many replies as it needs. */
  function Drive(cfg: Settings, r: Run, replies: seq<Reply>): Run
    decreases |replies|
  {
    if r.node == End || replies == [] then r else Drive(cfg, Step(cfg, r, replies[0]), replies[1..])
  }

  // ------------------------------------------------------- what a run reports

  /** One numbered, attributed block of prompt context. */
  datatype Block = Block(position: nat, source: string, page: Option<string>, content: string)

  datatype Citation = Citation(marker: nat, id: string, filename: string, page: string, score: real)

  function MetadataOr(m: map<string, string>, key: string, default: string): string {
    if key in m then m[key] else default
  }

  function BlockOf(position: nat, scored: ScoredDocument): Block {
    var page := MetadataOr(scored.document.metadata, "page", "");
    Block(position, MetadataOr(scored.document.metadata, "filename", scored.document.id),
          if page == "" then None else Some(page), scored.document.content)
  }

  function CitationOf(marker: nat, scored: ScoredDocument): Citation {
    var m := scored.document.metadata;
    Citation(marker, scored.document.id, MetadataOr(m, "filename", ""), MetadataOr(m, "page", ""), scored.score)
  }

  /** One entry of a reported trace: a node that ran, or the mark a cache hit leaves. */
  datatype Mark = Visited(node: Node) | ExactHit | SemanticHit

  datatype Metadata = Metadata(
    revisions: nat,
    trace: seq<Mark>,
    plan: Option<Plan>,
    critique: Option<Critique>,
    citations: seq<Citation>,
    tools: seq<ToolResult>)

  function MetadataOf(st: RunState): Metadata {
    Metadata(st.revisions,
             seq(|st.trace|, i requires 0 <= i < |st.trace| => Visited(st.trace[i])),
             st.plan, st.critique,
             seq(|st.documents|, i requires 0 <= i < |st.documents| => CitationOf(i + 1, st.documents[i])),
             st.toolResults)
  }

  /** Block `[n]` of the prompt and citation `n` of the response describe the same document. */
  ghost predicate Agree(block: Block, citation: Citation, scored: ScoredDocument) {
    var m := scored.document.metadata;
    && block.position == citation.marker && citation.score == scored.score
    && citation.id == scored.document.id && block.content == scored.document.content
    && ("filename" in m ==> block.source == citation.filename == m["filename"])
    && ("filename" !in m ==> block.source == citation.id && citation.filename == "")
    && (if "page" in m && m["page"] != "" then block.page == Some(citation.page) && citation.page == m["page"]
        else block.page == None && citation.page == "")
  }

  /** `format_context`: one block for each document within the limit, numbered from
      one, and numbered as the response will cite it. */
  method FormatContext(st: RunState, limit: nat) returns (blocks: seq<Block>)
    ensures |blocks| == if |st.documents| < limit then |st.documents| else limit
    ensures forall i :: 0 <= i < |blocks| ==> blocks[i] == BlockOf(i + 1, st.documents[i])
    ensures forall i :: 0 <= i < |blocks| ==>
              blocks[i].position == i + 1 && Agree(blocks[i], MetadataOf(st).citations[i], st.documents[i])
  {
    blocks := [];
    var shown := if |st.documents| < limit then st.documents else st.documents[..limit];
    for position := 0 to |shown|
      invariant |blocks| == position
      invariant forall i :: 0 <= i < position ==> blocks[i] == BlockOf(i + 1, st.documents[i])
    {
      blocks := blocks + [BlockOf(position + 1, shown[position])];
    }
  }

  // -------------------------------------------------------------- cache gate

  datatype Refusal = EmptyAnswer | NoCritique | InsufficientContext | NotGrounded | LowConfidence | FailedToolCall

  /** The reason this answer must not be cached, or `None` to cache it. */
  function Refuse(minConfidence: real, answer: string, metadata: Metadata): Option<Refusal> {
    if Strip(answer) == "" then Some(EmptyAnswer)
    else if metadata.critique == None then Some(NoCritique)
    else
      var critique := metadata.critique.value;
      if !critique.sufficientContext then Some(InsufficientContext)
      else if !critique.grounded then Some(NotGrounded)
      else if critique.confidence < minConfidence then Some(LowConfidence)
      else if exists i :: 0 <= i < |metadata.tools| && !metadata.tools[i].Ok() then Some(FailedToolCall)
      else None
  }
}
