/** What a run's state holds, told from what the models, tools and retriever replied.

    Every field of the state is traced to the latest visit of the node that writes
    it: what the node read then, and the reply it got.
 */
module RunRecords {
  import opened Wrappers
  import opened Text
  import opened AgentGraph
  import AgentRuns

  /** One visit of a node: the state it read and the reply it got. */
  datatype Visit = Visit(read: RunState, reply: Reply)

  /** The latest visit of each node that writes to the state. */
  datatype Latest = Latest(
    analyzer: Option<Visit>,
    planner: Option<Visit>,
    tools: Option<Visit>,
    retriever: Option<Visit>,
    generator: Option<Visit>,
    critic: Option<Visit>)

  const NOTHING := Latest(None, None, None, None, None, None)

  function Noted(latest: Latest, node: Node, visit: Visit): Latest {
    match node
    case Analyzer => latest.(analyzer := Some(visit))
    case Planner => latest.(planner := Some(visit))
    case Tools => latest.(tools := Some(visit))
    case Retriever => latest.(retriever := Some(visit))
    case Generator => latest.(generator := Some(visit))
    case Critic => latest.(critic := Some(visit))
    case _ => latest
  }

  /** The latest visits after a run goes on with `replies`. */
  function Visited(cfg: Settings, r: Run, replies: seq<Reply>, latest: Latest): Latest
    decreases |replies|
  {
    if r.node == End || replies == [] then latest
    else Visited(cfg, Step(cfg, r, replies[0]), replies[1..], Noted(latest, r.node, Visit(r.st, replies[0])))
  }

  // ----------------------------------------------------- what each node leaves

  /** Neither a document nor a tool call that came back with something. */
  ghost predicate NoGrounds(st: RunState) {
    st.documents == [] && forall i :: 0 <= i < |st.toolResults| ==> !st.toolResults[i].outcome.Output?
  }

  ghost predicate AnalysisFrom(v: Visit, analysis: Option<Analysis>) {
    match v.reply.analysis
    case Some(a) => analysis == Some(a)
    case None => analysis == Some(Analysis(v.read.query))
  }

  /** The normalised question, or the question itself where that is blank. */
  ghost predicate SearchesQuestion(v: Visit, text: string) {
    var normalised := Strip(match v.read.analysis case Some(a) => a.normalisedQuery case None => v.read.query);
    text == if normalised != "" then normalised else v.read.query
  }

  /** The planner's own plan, its search text filled in if blank; without one, plain retrieval. */
  ghost predicate PlanFrom(v: Visit, plan: Option<Plan>) {
    && plan.Some?
    && match v.reply.plan
       case Some(p) =>
         && plan.value.(searchText := p.searchText) == p
         && if Strip(p.searchText) != "" then plan.value.searchText == p.searchText
            else SearchesQuestion(v, plan.value.searchText)
       case None =>
         && plan.value.retrievalNeeded && !plan.value.toolsNeeded && plan.value.toolCalls == []
         && SearchesQuestion(v, plan.value.searchText)
  }

  /** The planned calls, in order, up to the cap, each with its own outcome. */
  ghost predicate ToolsFrom(cfg: Settings, v: Visit, results: seq<ToolResult>) {
    var calls := match v.read.plan case Some(p) => p.toolCalls case None => [];
    if !cfg.toolsEnabled then results == []
    else
      && |results| == (if |calls| < cfg.maxToolCalls then |calls| else cfg.maxToolCalls)
      && forall i :: 0 <= i < |results| ==>
           && results[i].call == calls[i]
           && results[i].outcome == if i < |v.reply.outcomes| then v.reply.outcomes[i] else Unknown
  }

  /** What the retriever found, if the plan asked for it and the search did not fail. */
  ghost predicate DocumentsFrom(v: Visit, documents: seq<ScoredDocument>) {
    if v.read.plan.Some? && v.read.plan.value.retrievalNeeded && v.reply.found.Some?
    then documents == v.reply.found.value
    else documents == []
  }

  /** The fixed refusal without grounds; otherwise what the model wrote, or that it failed. */
  ghost predicate AnswerFrom(v: Visit, answer: Answer) {
    if NoGrounds(v.read) then answer == NothingFound
    else
      match v.reply.answer
      case Some(text) => answer == Written(Strip(text))
      case None => answer == Unreachable
  }

  /** Insufficient without grounds; otherwise the critic's own verdict, or one of no confidence. */
  ghost predicate CritiqueFrom(v: Visit, critique: Option<Critique>) {
    && critique.Some?
    && var verdict := critique.value;
       if NoGrounds(v.read) then !verdict.sufficientContext && verdict.confidence == 1.0 && verdict.claims == []
       else
         match v.reply.critique
         case Some(c) => verdict == c
         case None => verdict.sufficientContext && verdict.grounded && verdict.confidence == 0.0 && verdict.claims == []
  }

  ghost predicate Recorded(cfg: Settings, st: RunState, latest: Latest) {
    && (if latest.analyzer == None then st.analysis == None else AnalysisFrom(latest.analyzer.value, st.analysis))
    && (if latest.planner == None then st.plan == None else PlanFrom(latest.planner.value, st.plan))
    && (if latest.tools == None then st.toolResults == [] else ToolsFrom(cfg, latest.tools.value, st.toolResults))
    && (if latest.retriever == None then st.documents == [] else DocumentsFrom(latest.retriever.value, st.documents))
    && (if latest.generator == None then st.answer == Undrafted else AnswerFrom(latest.generator.value, st.answer))
    && (if latest.critic == None then st.critique == None else CritiqueFrom(latest.critic.value, st.critique))
  }

  // ------------------------------------------------------------ in every run

  lemma ContextIsGrounds(st: RunState)
    ensures HasContext(st) <==> !NoGrounds(st)
  {
    if !NoGrounds(st) && st.documents == [] {
      var i :| 0 <= i < |st.toolResults| && st.toolResults[i].outcome.Output?;
      assert st.toolResults[i].Ok();
    }
  }

  lemma WithAnalysis(cfg: Settings, st: RunState, latest: Latest, v: Visit, x: Option<Analysis>)
    requires Recorded(cfg, st, latest) && AnalysisFrom(v, x)
    ensures Recorded(cfg, st.(analysis := x), latest.(analyzer := Some(v)))
  {
  }

  lemma WithPlan(cfg: Settings, st: RunState, latest: Latest, v: Visit, x: Option<Plan>, n: nat)
    requires Recorded(cfg, st, latest) && PlanFrom(v, x)
    ensures Recorded(cfg, st.(plan := x, revisions := n), latest.(planner := Some(v)))
  {
  }

  lemma WithResults(cfg: Settings, st: RunState, latest: Latest, v: Visit, x: seq<ToolResult>)
    requires Recorded(cfg, st, latest) && ToolsFrom(cfg, v, x)
    ensures Recorded(cfg, st.(toolResults := x), latest.(tools := Some(v)))
  {
  }

  lemma WithDocuments(cfg: Settings, st: RunState, latest: Latest, v: Visit, x: seq<ScoredDocument>)
    requires Recorded(cfg, st, latest) && DocumentsFrom(v, x)
    ensures Recorded(cfg, st.(documents := x), latest.(retriever := Some(v)))
  {
  }

  lemma WithAnswer(cfg: Settings, st: RunState, latest: Latest, v: Visit, x: Answer)
    requires Recorded(cfg, st, latest) && AnswerFrom(v, x)
    ensures Recorded(cfg, st.(answer := x), latest.(generator := Some(v)))
  {
  }

  lemma WithCritique(cfg: Settings, st: RunState, latest: Latest, v: Visit, x: Option<Critique>)
    requires Recorded(cfg, st, latest) && CritiqueFrom(v, x)
    ensures Recorded(cfg, st.(critique := x), latest.(critic := Some(v)))
  {
  }

  lemma PlannerRecords(st: RunState, reply: Reply)
    ensures PlanFrom(Visit(st, reply), MakePlan(st, reply).plan)
    ensures MakePlan(st, reply) == st.(plan := MakePlan(st, reply).plan, revisions := MakePlan(st, reply).revisions)
  {
  }

  lemma ToolsRecord(cfg: Settings, st: RunState, reply: Reply)
    ensures ToolsFrom(cfg, Visit(st, reply), RunTools(cfg, st, reply).toolResults)
    ensures RunTools(cfg, st, reply) == st.(toolResults := RunTools(cfg, st, reply).toolResults)
  {
  }

  lemma GeneratorRecords(st: RunState, reply: Reply)
    ensures AnswerFrom(Visit(st, reply), Generate(st, reply).answer)
    ensures Generate(st, reply) == st.(answer := Generate(st, reply).answer)
  {
    ContextIsGrounds(st);
  }

  lemma CriticRecords(st: RunState, reply: Reply)
    ensures CritiqueFrom(Visit(st, reply), Criticise(st, reply).critique)
    ensures Criticise(st, reply) == st.(critique := Criticise(st, reply).critique)
  {
    ContextIsGrounds(st);
  }

  lemma AnalyzerKeeps(cfg: Settings, st: RunState, reply: Reply, latest: Latest)
    requires Recorded(cfg, st, latest)
    ensures Recorded(cfg, Analyse(st, reply), latest.(analyzer := Some(Visit(st, reply))))
  {
    WithAnalysis(cfg, st, latest, Visit(st, reply), Analyse(st, reply).analysis);
  }

  lemma RetrieverKeeps(cfg: Settings, st: RunState, reply: Reply, latest: Latest)
    requires Recorded(cfg, st, latest)
    ensures Recorded(cfg, Retrieve(st, reply), latest.(retriever := Some(Visit(st, reply))))
  {
    WithDocuments(cfg, st, latest, Visit(st, reply), Retrieve(st, reply).documents);
  }

  lemma PlannerKeeps(cfg: Settings, st: RunState, reply: Reply, latest: Latest)
    requires Recorded(cfg, st, latest)
    ensures Recorded(cfg, MakePlan(st, reply), latest.(planner := Some(Visit(st, reply))))
  {
    PlannerRecords(st, reply);
    WithPlan(cfg, st, latest, Visit(st, reply), MakePlan(st, reply).plan, MakePlan(st, reply).revisions);
  }

  lemma ToolsKeep(cfg: Settings, st: RunState, reply: Reply, latest: Latest)
    requires Recorded(cfg, st, latest)
    ensures Recorded(cfg, RunTools(cfg, st, reply), latest.(tools := Some(Visit(st, reply))))
  {
    ToolsRecord(cfg, st, reply);
    WithResults(cfg, st, latest, Visit(st, reply), RunTools(cfg, st, reply).toolResults);
  }

  lemma GeneratorKeeps(cfg: Settings, st: RunState, reply: Reply, latest: Latest)
    requires Recorded(cfg, st, latest)
    ensures Recorded(cfg, Generate(st, reply), latest.(generator := Some(Visit(st, reply))))
  {
    GeneratorRecords(st, reply);
    WithAnswer(cfg, st, latest, Visit(st, reply), Generate(st, reply).answer);
  }

  lemma CriticKeeps(cfg: Settings, st: RunState, reply: Reply, latest: Latest)
    requires Recorded(cfg, st, latest)
    ensures Recorded(cfg, Criticise(st, reply), latest.(critic := Some(Visit(st, reply))))
  {
    CriticRecords(st, reply);
    WithCritique(cfg, st, latest, Visit(st, reply), Criticise(st, reply).critique);
  }

  /** What a node writes is recorded, and nothing else changes. */
  lemma UpdateRecords(cfg: Settings, node: Node, st: RunState, reply: Reply, latest: Latest)
    requires Recorded(cfg, st, latest)
    ensures Recorded(cfg, Update(cfg, node, st, reply), Noted(latest, node, Visit(st, reply)))
  {
    match node
    case Analyzer => AnalyzerKeeps(cfg, st, reply, latest);
    case Planner => PlannerKeeps(cfg, st, reply, latest);
    case Tools => ToolsKeep(cfg, st, reply, latest);
    case Retriever => RetrieverKeeps(cfg, st, reply, latest);
    case Generator => GeneratorKeeps(cfg, st, reply, latest);
    case Critic => CriticKeeps(cfg, st, reply, latest);
    case _ =>
  }

  lemma TraceIsNotRecorded(cfg: Settings, st: RunState, latest: Latest, trace: seq<Node>)
    requires Recorded(cfg, st, latest)
    ensures Recorded(cfg, st.(trace := trace), latest)
  {
  }

  lemma StepRecords(cfg: Settings, r: Run, reply: Reply, latest: Latest)
    requires r.node != End && Recorded(cfg, r.st, latest)
    ensures Recorded(cfg, Step(cfg, r, reply).st, Noted(latest, r.node, Visit(r.st, reply)))
  {
    var next := Update(cfg, r.node, r.st, reply);
    UpdateRecords(cfg, r.node, r.st, reply, latest);
    TraceIsNotRecorded(cfg, next, Noted(latest, r.node, Visit(r.st, reply)), next.trace + [r.node]);
  }

  lemma {:induction false} DriveRecords(cfg: Settings, r: Run, replies: seq<Reply>, latest: Latest)
    requires Recorded(cfg, r.st, latest)
    ensures Recorded(cfg, Drive(cfg, r, replies).st, Visited(cfg, r, replies, latest))
    decreases |replies|
  {
    if r.node != End && replies != [] {
      StepRecords(cfg, r, replies[0], latest);
      DriveRecords(cfg, Step(cfg, r, replies[0]), replies[1..], Noted(latest, r.node, Visit(r.st, replies[0])));
    }
  }

  /** At every moment of every run, each field of the state is what the latest
      visit of its node makes of the reply it got: no plan, call, document, answer
      or verdict is invented, altered or kept past the visit that replaced it. */
  lemma StateFollowsReplies(cfg: Settings, query: string, replies: seq<Reply>)
    ensures Recorded(cfg, Drive(cfg, Start(query), replies).st, Visited(cfg, Start(query), replies, NOTHING))
  {
    DriveRecords(cfg, Start(query), replies, NOTHING);
  }

  // ------------------------------------------------------------- the verdict

  /** Between the critic's visit and the end nothing it read changes. */
  ghost predicate JudgedLast(r: Run, latest: Latest) {
    r.node == MemoryWriter || r.node == End ==>
      && latest.critic.Some?
      && latest.critic.value.read.documents == r.st.documents
      && latest.critic.value.read.toolResults == r.st.toolResults
  }

  lemma {:induction false} DriveJudgedLast(cfg: Settings, r: Run, replies: seq<Reply>, latest: Latest)
    requires JudgedLast(r, latest)
    ensures JudgedLast(Drive(cfg, r, replies), Visited(cfg, r, replies, latest))
    decreases |replies|
  {
    if r.node != End && replies != [] {
      DriveJudgedLast(cfg, Step(cfg, r, replies[0]), replies[1..], Noted(latest, r.node, Visit(r.st, replies[0])));
    }
  }

  /** A completed run ends on what the critic last replied: with grounds, its own
      verdict unaltered, or no confidence when it failed; without, insufficient context. */
  lemma VerdictIsTheCritics(cfg: Settings, query: string, replies: seq<Reply>)
    requires Drive(cfg, Start(query), replies).node == End
    ensures var st, critic := Drive(cfg, Start(query), replies).st, Visited(cfg, Start(query), replies, NOTHING).critic;
            && st.critique.Some? && critic.Some?
            && (NoGrounds(st) ==> !st.critique.value.sufficientContext)
            && (!NoGrounds(st) && critic.value.reply.critique.Some? ==>
                  st.critique == critic.value.reply.critique)
            && (!NoGrounds(st) && critic.value.reply.critique == None ==> st.critique.value.confidence == 0.0)
  {
    StateFollowsReplies(cfg, query, replies);
    DriveJudgedLast(cfg, Start(query), replies, NOTHING);
  }

  /** What the critic last replied lets an answer be kept: context, grounding, and the
      confidence asked for; a critic that failed only where none is asked for. */
  ghost predicate Approves(minConfidence: real, critic: Visit) {
    match critic.reply.critique
    case Some(c) => c.sufficientContext && c.grounded && c.confidence >= minConfidence
    case None => minConfidence <= 0.0
  }

  /** The cache keeps the answer of a completed run exactly when it has grounds, the
      critic's last reply approves, there is something to keep, and every tool call of
      the latest round came back with something. */
  lemma AdmittedIff(cfg: Settings, query: string, replies: seq<Reply>)
    requires Drive(cfg, Start(query), replies).node == End
    ensures var st, critic := Drive(cfg, Start(query), replies).st, Visited(cfg, Start(query), replies, NOTHING).critic;
            && critic.Some?
            && (Refuse(cfg.minConfidence, st.answer.Text(), MetadataOf(st)) == None <==>
                  && !NoGrounds(st) && Approves(cfg.minConfidence, critic.value)
                  && !Blank(st.answer.Text())
                  && forall i :: 0 <= i < |st.toolResults| ==> st.toolResults[i].outcome.Output?)
  {
    var latest := Visited(cfg, Start(query), replies, NOTHING);
    StateFollowsReplies(cfg, query, replies);
    DriveJudgedLast(cfg, Start(query), replies, NOTHING);
    var st := Drive(cfg, Start(query), replies).st;
    TheGate(cfg.minConfidence, st);
    Verdict(cfg.minConfidence, st, latest.critic.value);
  }

  /** What the gate looks at. */
  lemma TheGate(minConfidence: real, st: RunState)
    requires st.critique.Some?
    ensures Refuse(minConfidence, st.answer.Text(), MetadataOf(st)) == None <==>
              && st.critique.value.sufficientContext && st.critique.value.grounded
              && st.critique.value.confidence >= minConfidence && !Blank(st.answer.Text())
              && forall i :: 0 <= i < |st.toolResults| ==> st.toolResults[i].outcome.Output?
  {
    StripBlank(st.answer.Text());
    AllCameBack(st);
  }

  lemma Verdict(minConfidence: real, st: RunState, critic: Visit)
    requires CritiqueFrom(critic, st.critique)
    requires critic.read.documents == st.documents && critic.read.toolResults == st.toolResults
    ensures (var c := st.critique.value; c.sufficientContext && c.grounded && c.confidence >= minConfidence)
            <==> !NoGrounds(st) && Approves(minConfidence, critic)
  {
    SameGrounds(st, critic.read);
  }

  lemma SameGrounds(st: RunState, other: RunState)
    requires other.documents == st.documents && other.toolResults == st.toolResults
    ensures NoGrounds(st) == NoGrounds(other)
  {
  }

  lemma AllCameBack(st: RunState)
    ensures (exists i :: 0 <= i < |MetadataOf(st).tools| && !MetadataOf(st).tools[i].Ok())
            <==> !(forall i :: 0 <= i < |st.toolResults| ==> st.toolResults[i].outcome.Output?)
  {
    if i :| 0 <= i < |st.toolResults| && !st.toolResults[i].outcome.Output? {
      assert !MetadataOf(st).tools[i].Ok();
    }
  }

  // --------------------------------------------------------------- the report

  /** The nodes a run goes through with `replies`. */
  function Path(cfg: Settings, r: Run, replies: seq<Reply>): seq<Node>
    decreases |replies|
  {
    if r.node == End || replies == [] then [] else [r.node] + Path(cfg, Step(cfg, r, replies[0]), replies[1..])
  }

  lemma {:induction false} TraceIsThePath(cfg: Settings, r: Run, replies: seq<Reply>)
    ensures Drive(cfg, r, replies).st.trace == r.st.trace + Path(cfg, r, replies)
    decreases |replies|
  {
    if r.node != End && replies != [] {
      TraceIsThePath(cfg, Step(cfg, r, replies[0]), replies[1..]);
    }
  }

  /** Past the planner there is a visit of the planner. */
  ghost predicate PlannedOnce(r: Run, latest: Latest) {
    r.node == MemoryLoader || r.node == Analyzer || r.node == Planner || latest.planner.Some?
  }

  lemma {:induction false} DrivePlannedOnce(cfg: Settings, r: Run, replies: seq<Reply>, latest: Latest)
    requires PlannedOnce(r, latest)
    ensures PlannedOnce(Drive(cfg, r, replies), Visited(cfg, r, replies, latest))
    decreases |replies|
  {
    if r.node != End && replies != [] {
      DrivePlannedOnce(cfg, Step(cfg, r, replies[0]), replies[1..], Noted(latest, r.node, Visit(r.st, replies[0])));
    }
  }

  /** One citation for each document the run found, in order and numbered from one. */
  ghost predicate Cites(citations: seq<Citation>, documents: seq<ScoredDocument>) {
    && |citations| == |documents|
    && forall i :: 0 <= i < |documents| ==>
         && citations[i].marker == i + 1
         && citations[i].id == documents[i].document.id
         && citations[i].score == documents[i].score
  }

  /** A report tells the nodes gone through, the visits of the planner after the first,
      the latest plan, verdict and tool results, and the documents. */
  ghost predicate Reported(cfg: Settings, m: Metadata, latest: Latest, path: seq<Node>) {
    && m.trace == seq(|path|, i requires 0 <= i < |path| => Mark.Visited(path[i]))
    && m.revisions + 1 == AgentRuns.Count(path, Planner)
    && latest.planner.Some? && PlanFrom(latest.planner.value, m.plan)
    && latest.critic.Some? && CritiqueFrom(latest.critic.value, m.critique)
    && (if latest.tools == None then m.tools == [] else ToolsFrom(cfg, latest.tools.value, m.tools))
    && exists found ::
         && Cites(m.citations, found)
         && if latest.retriever == None then found == [] else DocumentsFrom(latest.retriever.value, found)
  }

  lemma RecordIsReported(cfg: Settings, st: RunState, latest: Latest)
    requires Recorded(cfg, st, latest) && latest.planner.Some? && latest.critic.Some?
    requires st.revisions + 1 == AgentRuns.Count(st.trace, Planner)
    ensures Reported(cfg, MetadataOf(st), latest, st.trace)
  {
    assert Cites(MetadataOf(st).citations, st.documents);
  }

  /** A completed run reports what it did. */
  lemma ReportFollowsReplies(cfg: Settings, query: string, replies: seq<Reply>)
    requires Drive(cfg, Start(query), replies).node == End
    ensures Reported(cfg, MetadataOf(Drive(cfg, Start(query), replies).st),
                     Visited(cfg, Start(query), replies, NOTHING), Path(cfg, Start(query), replies))
  {
    StateFollowsReplies(cfg, query, replies);
    DriveJudgedLast(cfg, Start(query), replies, NOTHING);
    DrivePlannedOnce(cfg, Start(query), replies, NOTHING);
    TraceIsThePath(cfg, Start(query), replies);
    AgentRuns.RevisionsCounted(cfg, query, replies);
    var st := Drive(cfg, Start(query), replies).st;
    assert st.trace == Path(cfg, Start(query), replies);
    RecordIsReported(cfg, st, Visited(cfg, Start(query), replies, NOTHING));
  }

  // -------------------------------------------------------------- the edges

  /** Where a visit leads, told from the plan and the verdict it left. */
  ghost predicate Leads(cfg: Settings, node: Node, st: RunState, next: Node) {
    match node
    case Planner =>
      if st.plan == None then next == Retriever
      else if st.plan.value.toolsNeeded && st.plan.value.toolCalls != [] then next == Tools
      else if st.plan.value.retrievalNeeded then next == Retriever
      else next == Generator
    case Tools => next == if st.plan.Some? && !st.plan.value.retrievalNeeded then Generator else Retriever
    case Retriever => next == Generator
    case Generator => next == Critic
    case Critic =>
      if st.critique.Some? && !st.critique.value.sufficientContext && st.revisions < cfg.maxRevisions
      then next == Planner
      else next == MemoryWriter
    case _ => true
  }

  /** In every run each edge taken is the one the replies call for: tools when the
      plan names calls and wants them, retrieval when it needs documents, another
      round exactly when context is insufficient and the budget lasts. */
  lemma EdgesFollowReplies(cfg: Settings, query: string, replies: seq<Reply>, i: nat)
    requires i < |replies| && Drive(cfg, Start(query), replies[..i]).node != End
    ensures var before, after := Drive(cfg, Start(query), replies[..i]), Drive(cfg, Start(query), replies[..i + 1]);
            Leads(cfg, before.node, after.st, after.node)
  {
    AgentRuns.DriveSplit(cfg, Start(query), replies, i);
  }
}
