/** Theorems about every run of the graph, whatever the models, tools and retrievers reply. */
module AgentRuns {
  import opened Wrappers
  import opened Text
  import opened AgentGraph

  function Count(nodes: seq<Node>, n: Node): nat {
    if nodes == [] then 0 else Count(nodes[..|nodes| - 1], n) + if nodes[|nodes| - 1] == n then 1 else 0
  }

  /** Steps a run may still take: at most five per planning round, and one to write memory. */
  function Remaining(cfg: Settings, r: Run): int {
    var rounds := cfg.maxRevisions - r.st.revisions;
    match r.node
    case MemoryLoader => 3 + 5 * (rounds + 1)
    case Analyzer => 2 + 5 * (rounds + 1)
    case Planner => 1 + 5 * if r.st.critique.Some? then rounds else rounds + 1
    case Tools => 5 + 5 * rounds
    case Retriever => 4 + 5 * rounds
    case Generator => 3 + 5 * rounds
    case Critic => 2 + 5 * rounds
    case MemoryWriter => 1
    case End => 0
  }

  /** How many times a run at this point has planned. */
  function Planned(r: Run): nat {
    match r.node
    case MemoryLoader => 0
    case Analyzer => 0
    case Planner => if r.st.critique.Some? then r.st.revisions + 1 else 0
    case _ => r.st.revisions + 1
  }

  /** What the trace has counted. */
  ghost predicate Counted(r: Run) {
    && Count(r.st.trace, Planner) == Planned(r)
    && Count(r.st.trace, MemoryWriter) == (if r.node == End then 1 else 0)
    && (r.node == End ==> r.st.trace != [] && r.st.trace[|r.st.trace| - 1] == MemoryWriter)
  }

  /** What holds of the verdict a run ends on. */
  ghost predicate Verdict(cfg: Settings, st: RunState) {
    && st.critique.Some?
    && (st.critique.value.sufficientContext ==> HasContext(st))
    && (!st.critique.value.sufficientContext ==> st.revisions == cfg.maxRevisions)
  }

  ghost predicate Bounded(cfg: Settings, r: Run) {
    var st := r.st;
    && st.revisions <= cfg.maxRevisions
    && (st.critique == None ==> st.revisions == 0)
    && (r.node.MemoryLoader? || r.node.Analyzer? ==> st.critique == None)
    && (r.node == Planner && st.critique.Some? ==> st.revisions < cfg.maxRevisions)
    && (r.node == MemoryWriter || r.node == End ==> Verdict(cfg, st))
  }

  ghost predicate Sound(cfg: Settings, r: Run) {
    Bounded(cfg, r) && Counted(r)
  }

  lemma CriticBounded(cfg: Settings, r: Run, reply: Reply)
    requires Bounded(cfg, r) && r.node == Critic
    ensures Bounded(cfg, Step(cfg, r, reply))
  {
    var st := Criticise(r.st, reply);
    assert HasContext(st) == HasContext(r.st);
  }

  lemma StepBounded(cfg: Settings, r: Run, reply: Reply)
    requires Bounded(cfg, r) && r.node != End
    ensures Bounded(cfg, Step(cfg, r, reply))
  {
    if r.node == Critic {
      CriticBounded(cfg, r, reply);
    }
  }

  lemma StepShrinks(cfg: Settings, r: Run, reply: Reply)
    requires Bounded(cfg, r) && r.node != End
    ensures Remaining(cfg, Step(cfg, r, reply)) < Remaining(cfg, r)
  {
    var r' := Step(cfg, r, reply);
    match r.node
    case Planner => assert r'.node == Tools || r'.node == Retriever || r'.node == Generator;
    case Tools => assert r'.node == Retriever || r'.node == Generator;
    case Critic => assert r'.node == Planner || r'.node == MemoryWriter;
    case _ =>
  }

  lemma StepCounted(cfg: Settings, r: Run, reply: Reply)
    requires Bounded(cfg, r) && Counted(r) && r.node != End
    ensures Counted(Step(cfg, r, reply))
    ensures |Step(cfg, r, reply).st.trace| == |r.st.trace| + 1
  {
    var trace := r.st.trace + [r.node];
    assert Step(cfg, r, reply).st.trace == trace;
    assert trace[..|trace| - 1] == r.st.trace;
  }

  lemma StepSound(cfg: Settings, r: Run, reply: Reply)
    requires Sound(cfg, r) && r.node != End
    ensures Sound(cfg, Step(cfg, r, reply))
    ensures Remaining(cfg, Step(cfg, r, reply)) < Remaining(cfg, r)
    ensures |Step(cfg, r, reply).st.trace| == |r.st.trace| + 1
  {
    StepBounded(cfg, r, reply);
    StepShrinks(cfg, r, reply);
    StepCounted(cfg, r, reply);
  }

  lemma {:induction false} DriveSound(cfg: Settings, r: Run, replies: seq<Reply>)
    requires Sound(cfg, r)
    ensures Sound(cfg, Drive(cfg, r, replies))
    ensures var r' := Drive(cfg, r, replies);
            && |r'.st.trace| - |r.st.trace| <= Remaining(cfg, r) - Remaining(cfg, r')
            && (r'.node == End || |r'.st.trace| - |r.st.trace| == |replies|)
    decreases |replies|
  {
    if r.node != End && replies != [] {
      StepSound(cfg, r, replies[0]);
      DriveSound(cfg, Step(cfg, r, replies[0]), replies[1..]);
    }
  }

  /** Every run ends, after at most three plus five steps per planning round allowed. */
  lemma EveryRunEnds(cfg: Settings, query: string, replies: seq<Reply>)
    ensures var r := Drive(cfg, Start(query), replies);
            && |r.st.trace| <= 3 + 5 * (cfg.maxRevisions + 1)
            && (|replies| >= 3 + 5 * (cfg.maxRevisions + 1) ==> r.node == End)
  {
    DriveSound(cfg, Start(query), replies);
    RemainingNatural(cfg, Drive(cfg, Start(query), replies));
  }

  lemma RemainingNatural(cfg: Settings, r: Run)
    requires Sound(cfg, r)
    ensures Remaining(cfg, r) >= 0 && (Remaining(cfg, r) == 0 ==> r.node == End)
  {
  }

  /** A finished run wrote memory once, last, and counted one revision for every
      visit to the planner after the first, within its budget. */
  lemma RevisionsCounted(cfg: Settings, query: string, replies: seq<Reply>)
    requires Drive(cfg, Start(query), replies).node == End
    ensures var st := Drive(cfg, Start(query), replies).st;
            && Count(st.trace, MemoryWriter) == 1
            && |st.trace| > 0 && st.trace[|st.trace| - 1] == MemoryWriter
            && st.revisions + 1 == Count(st.trace, Planner)
            && st.revisions <= cfg.maxRevisions
  {
    DriveSound(cfg, Start(query), replies);
  }

  /** A planner that always wants both stages, and a critic that is never satisfied. */
  ghost predicate Insatiable(cfg: Settings, reply: Reply) {
    && reply.plan.Some? && reply.plan.value.WantsTools() && reply.plan.value.retrievalNeeded
    && reply.critique.Some? && !reply.critique.value.sufficientContext
  }

  lemma {:induction false} NoStepSpared(cfg: Settings, r: Run, reply: Reply, n: nat)
    requires Sound(cfg, r) && Insatiable(cfg, reply) && n == Remaining(cfg, r)
    requires r.node == Tools ==> r.st.plan.Some? && r.st.plan.value.retrievalNeeded
    ensures var r' := Drive(cfg, r, seq(n, _ => reply));
            r'.node == End && |r'.st.trace| == |r.st.trace| + n
    decreases n
  {
    if r.node != End {
      var next := OneSpent(cfg, r, reply, n);
      NoStepSpared(cfg, next, reply, n - 1);
    }
  }

  lemma DriveOne(cfg: Settings, r: Run, replies: seq<Reply>)
    requires r.node != End && replies != []
    ensures Drive(cfg, r, replies) == Drive(cfg, Step(cfg, r, replies[0]), replies[1..])
  {
  }

  /** The first of the remaining steps, and what it leaves to do. */
  lemma OneSpent(cfg: Settings, r: Run, reply: Reply, n: nat) returns (next: Run)
    requires Sound(cfg, r) && Insatiable(cfg, reply) && n == Remaining(cfg, r) && r.node != End
    requires r.node == Tools ==> r.st.plan.Some? && r.st.plan.value.retrievalNeeded
    ensures n > 0 && Sound(cfg, next) && n - 1 == Remaining(cfg, next)
    ensures next.node == Tools ==> next.st.plan.Some? && next.st.plan.value.retrievalNeeded
    ensures |next.st.trace| == |r.st.trace| + 1
    ensures Drive(cfg, r, seq(n, _ => reply)) == Drive(cfg, next, seq(n - 1, _ => reply))
  {
    next := Step(cfg, r, reply);
    StepSound(cfg, r, reply);
    NeverSatisfied(cfg, r, reply);
    RemainingNatural(cfg, next);
    DriveOne(cfg, r, seq(n, _ => reply));
    assert seq(n, _ => reply)[1..] == seq(n - 1, _ => reply);
  }

  lemma NeverSatisfied(cfg: Settings, r: Run, reply: Reply)
    requires Sound(cfg, r) && Insatiable(cfg, reply) && r.node != End
    requires r.node == Tools ==> r.st.plan.Some? && r.st.plan.value.retrievalNeeded
    ensures var r' := Step(cfg, r, reply);
            && Remaining(cfg, r') == Remaining(cfg, r) - 1
            && (r'.node == Tools ==> r'.st.plan.Some? && r'.st.plan.value.retrievalNeeded)
  {
  }

  /** The bound is exact: such a run takes every step it is allowed. */
  lemma BoundIsReached(cfg: Settings, query: string, reply: Reply)
    requires Insatiable(cfg, reply)
    ensures var n := 3 + 5 * (cfg.maxRevisions + 1);
            var r := Drive(cfg, Start(query), seq(n, _ => reply));
            r.node == End && |r.st.trace| == n
  {
    NoStepSpared(cfg, Start(query), reply, 3 + 5 * (cfg.maxRevisions + 1));
  }

  // ------------------------------------------------------------- cache gate

  ghost predicate ToolFailed(st: RunState) {
    exists i :: 0 <= i < |st.toolResults| && !st.toolResults[i].Ok()
  }

  /** The router's acceptance and the cache's admission agree on every finished run. */
  lemma RouterAndCacheAgree(cfg: Settings, query: string, replies: seq<Reply>)
    requires Drive(cfg, Start(query), replies).node == End
    ensures var st := Drive(cfg, Start(query), replies).st;
            && st.critique.Some?
            && (Refuse(cfg.minConfidence, st.answer.Text(), MetadataOf(st)) == None <==>
                  st.critique.value.Accepts(cfg.minConfidence) && !Blank(st.answer.Text()) && !ToolFailed(st))
  {
    DriveSound(cfg, Start(query), replies);
    StripBlank(Drive(cfg, Start(query), replies).st.answer.Text());
  }

  /** An accepted answer had grounds; one without enough context cost the whole budget and is never cached. */
  lemma AcceptedMeansGrounds(cfg: Settings, query: string, replies: seq<Reply>)
    requires Drive(cfg, Start(query), replies).node == End
    ensures var st := Drive(cfg, Start(query), replies).st;
            && st.critique.Some?
            && (st.critique.value.Accepts(cfg.minConfidence) ==> HasContext(st))
            && (!st.critique.value.sufficientContext ==>
                  && st.revisions == cfg.maxRevisions
                  && Count(st.trace, Planner) == cfg.maxRevisions + 1
                  && Refuse(cfg.minConfidence, st.answer.Text(), MetadataOf(st)).Some?)
  {
    DriveSound(cfg, Start(query), replies);
  }

  /** What the critic's model last answered, or nothing before its first visit. */
  function LatestVerdict(cfg: Settings, r: Run, replies: seq<Reply>, latest: Option<Reply>): Option<Reply>
    decreases |replies|
  {
    if r.node == End || replies == [] then latest
    else LatestVerdict(cfg, Step(cfg, r, replies[0]), replies[1..],
                       if r.node == Critic then Some(replies[0]) else latest)
  }

  /** Once routed to the memory writer, a run whose critic failed is accepted
      exactly when it has context and the confidence floor is not positive. */
  ghost predicate Judged(cfg: Settings, r: Run, latest: Option<Reply>) {
    r.node == MemoryWriter || r.node == End ==>
      && r.st.critique.Some? && latest.Some?
      && (latest.value.critique == None ==>
            (r.st.critique.value.Accepts(cfg.minConfidence) <==> HasContext(r.st) && cfg.minConfidence <= 0.0))
  }

  lemma StepJudged(cfg: Settings, r: Run, reply: Reply, latest: Option<Reply>)
    requires Sound(cfg, r) && r.node != End && Judged(cfg, r, latest)
    ensures Judged(cfg, Step(cfg, r, reply), if r.node == Critic then Some(reply) else latest)
  {
  }

  lemma {:induction false} DriveJudged(cfg: Settings, r: Run, replies: seq<Reply>, latest: Option<Reply>)
    requires Sound(cfg, r) && Judged(cfg, r, latest)
    ensures Judged(cfg, Drive(cfg, r, replies), LatestVerdict(cfg, r, replies, latest))
    decreases |replies|
  {
    if r.node != End && replies != [] {
      StepSound(cfg, r, replies[0]);
      StepJudged(cfg, r, replies[0], latest);
      DriveJudged(cfg, Step(cfg, r, replies[0]), replies[1..], if r.node == Critic then Some(replies[0]) else latest);
    }
  }

  /** A completed run whose critic last failed ends accepted exactly when it has
      context and the confidence floor is not positive: with a positive floor, never. */
  lemma FailedCriticApproves(cfg: Settings, query: string, replies: seq<Reply>)
    requires Drive(cfg, Start(query), replies).node == End
    ensures var r, latest := Drive(cfg, Start(query), replies), LatestVerdict(cfg, Start(query), replies, None);
            && r.st.critique.Some? && latest.Some?
            && (latest.value.critique == None ==>
                  (r.st.critique.value.Accepts(cfg.minConfidence) <==> HasContext(r.st) && cfg.minConfidence <= 0.0))
  {
    DriveJudged(cfg, Start(query), replies, None);
  }

  // --------------------------------------------------------------- contexts

  lemma {:induction false} DriveSplit(cfg: Settings, r: Run, replies: seq<Reply>, i: nat)
    requires i < |replies|
    ensures var before := Drive(cfg, r, replies[..i]);
            Drive(cfg, r, replies[..i + 1]) == if before.node == End then before else Step(cfg, before, replies[i])
    decreases i
  {
    if r.node != End && i > 0 {
      assert replies[..i][1..] == replies[1..][..i - 1] && replies[..i + 1][1..] == replies[1..][..i];
      DriveSplit(cfg, Step(cfg, r, replies[0]), replies[1..], i - 1);
    } else if r.node != End {
      assert replies[..1][1..] == [];
    }
  }

  /** Whenever the critic is about to run, the step before was the generator's,
      on exactly the documents and tool results the critic now reads. */
  lemma CriticSeesTheGeneratorsContext(cfg: Settings, query: string, replies: seq<Reply>, i: nat)
    requires i < |replies| && Drive(cfg, Start(query), replies[..i + 1]).node == Critic
    ensures var before, at := Drive(cfg, Start(query), replies[..i]), Drive(cfg, Start(query), replies[..i + 1]);
            && before.node == Generator
            && at.st.documents == before.st.documents
            && at.st.toolResults == before.st.toolResults
            && at.st.answer == Generate(before.st, replies[i]).answer
  {
    DriveSplit(cfg, Start(query), replies, i);
  }

  /** The output of the latest visit to the retriever, or nothing before the first. */
  function LatestRetrieval(cfg: Settings, r: Run, replies: seq<Reply>, latest: seq<ScoredDocument>): seq<ScoredDocument>
    decreases |replies|
  {
    if r.node == End || replies == [] then latest
    else
      var r' := Step(cfg, r, replies[0]);
      LatestRetrieval(cfg, r', replies[1..], if r.node == Retriever then r'.st.documents else latest)
  }

  /** `documents` is always the latest retrieval, including after a replan that skipped it. */
  lemma {:induction false} DocumentsAreTheLatest(cfg: Settings, r: Run, replies: seq<Reply>)
    ensures Drive(cfg, r, replies).st.documents == LatestRetrieval(cfg, r, replies, r.st.documents)
    decreases |replies|
  {
    if r.node != End && replies != [] {
      DocumentsAreTheLatest(cfg, Step(cfg, r, replies[0]), replies[1..]);
    }
  }

  lemma SearchTextNotBlank(analysis: Analysis, query: string)
    requires !Blank(query)
    ensures !Blank(analysis.SearchText(query))
  {
    StrippedIsNotBlank(analysis.normalisedQuery);
  }

  lemma EnsuredNotBlank(plan: Plan, analysis: Analysis, query: string)
    requires !Blank(query)
    ensures !Blank(EnsureSearchText(plan, analysis, query).searchText)
  {
    StrippedIsNotBlank(plan.searchText);
    SearchTextNotBlank(analysis, query);
  }

  /** However the planner and the analyzer fail, a non-blank question is searched for with non-blank text. */
  lemma PlansAreSearchable(st: RunState, reply: Reply)
    requires !Blank(st.query)
    ensures var plan := MakePlan(st, reply).plan; plan.Some? && !Blank(plan.value.searchText)
  {
    var analysis := match st.analysis case Some(a) => a case None => Analysis(st.query);
    var plan := match reply.plan
      case Some(p) => p
      case None => Plan(true, analysis.SearchText(st.query), false, []);
    EnsuredNotBlank(plan, analysis, st.query);
  }
}
