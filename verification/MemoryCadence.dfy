/** Does the rolling summary keep up with the window?

    A turn that leaves the window before a summary has covered it is lost. The
    settings validator demands `summary_after_turns <= short_term_turns` to rule
    that out. The theorem gives the window a configuration really needs.
 */
module MemoryCadence {
  import opened Wrappers
  import opened Text
  import opened OrderedDict
  import opened UserFacts
  import opened MemoryStore
  import opened MemoryWriter

  /** What can happen to a session: a graph run, a question served from the cache, or being forgotten. */
  datatype Exchange =
    | GraphRun(id: string, query: string, answer: string, reply: Reply)
    | CacheHit(id: string, query: string, answer: string)
    | Forget(id: string)

  function TurnsOf(e: Exchange): seq<Record> {
    match e
    case GraphRun(id, query, answer, _) => Turns(id, query, answer)
    case CacheHit(id, query, answer) => Turns(id, query, answer)
    case Forget(_) => []
  }

  function After(cfg: Settings, d: Sessions, e: Exchange): Sessions {
    match e
    case GraphRun(id, query, answer, reply) => Written(cfg, true, d, id, query, answer, reply)
    case CacheHit(_, _, _) => AppendedAll(cfg, d, TurnsOf(e))
    case Forget(id) => Without(d, id)
  }

  /** The summary call succeeds, the cache serves only sessions without history,
      and - when `paired` - every exchange has both sides. */
  predicate Possible(d: Sessions, e: Exchange, paired: bool) {
    match e
    case GraphRun(id, query, answer, reply) =>
      id != "" && reply.summary.Some? && (paired ==> query != "" && answer != "")
    case CacheHit(id, query, answer) =>
      id != "" && HistoryOf(d, id, 1) == [] && query != "" && answer != ""
    case Forget(_) => true
  }

  ghost predicate Run(cfg: Settings, d: Sessions, events: seq<Exchange>, paired: bool)
    decreases |events|
  {
    events == [] || (Possible(d, events[0], paired) && Run(cfg, After(cfg, d, events[0]), events[1..], paired))
  }

  /** Every turn the summary has not covered is still in the window. */
  ghost predicate NothingLost(d: Sessions) {
    forall id :: id in d.items ==> d.items[id].recorded - d.items[id].summarised <= |d.items[id].turns|
  }

  /** Nothing is lost at any moment of any exchange, turn by turn. */
  ghost predicate Lossless(cfg: Settings, d: Sessions, events: seq<Exchange>)
    decreases |events|
  {
    events == [] ||
    (&& (forall i :: 0 <= i <= |TurnsOf(events[0])| ==> NothingLost(AppendedAll(cfg, d, TurnsOf(events[0])[..i])))
     && NothingLost(After(cfg, d, events[0]))
     && Lossless(cfg, After(cfg, d, events[0]), events[1..]))
  }

  ghost predicate NeverLoses(cfg: Settings, paired: bool) {
    forall events :: Run(cfg, Empty(), events, paired) ==> Lossless(cfg, Empty(), events)
  }

  predicate Configured(cfg: Settings) {
    cfg.window > 0 && cfg.summaryAfter > 0 && cfg.maxSessions > 0
  }

  /** The smallest window that never loses a turn, as a function of the summary interval. */
  function WindowNeeded(interval: nat, paired: bool): int {
    var least := if paired then interval + interval % 2 else interval + 1;
    if least > 4 then least else 4
  }

  /** The most turns that can be waiting for a summary when an exchange begins. */
  function Backlog(interval: nat, paired: bool): int {
    WindowNeeded(interval, paired) - 2
  }

  // ------------------------------------------------------------ it is enough

  ghost predicate Kept(cfg: Settings, s: Session) {
    s.summarised <= s.recorded && |s.turns| == if s.recorded < cfg.window then s.recorded else cfg.window
  }

  ghost predicate Waiting(cfg: Settings, s: Session, paired: bool) {
    var pending := s.recorded - s.summarised;
    pending <= Backlog(cfg.summaryAfter, paired) && (paired ==> pending % 2 == 0)
  }

  ghost predicate Bounds(cfg: Settings, d: Sessions) {
    Configured(cfg) && Valid(d) && Size(d) <= cfg.maxSessions
  }

  ghost predicate Between(cfg: Settings, d: Sessions, paired: bool) {
    Bounds(cfg, d) && forall id :: id in d.items ==> Kept(cfg, d.items[id]) && Waiting(cfg, d.items[id], paired)
  }

  /** `e` is `d` with session `id` changed to `s`, and perhaps another one evicted. */
  ghost predicate Became(d: Sessions, e: Sessions, id: string, s: Session) {
    && id in e.items && e.items[id] == s
    && forall x :: x in e.items && x != id ==> x in d.items && e.items[x] == d.items[x]
  }

  lemma UpdateEffect(cfg: Settings, d: Sessions, id: string, s: Session)
    requires Bounds(cfg, d)
    ensures var e := Updated(Touched(cfg, d, id), id, s); Bounds(cfg, e) && Became(d, e, id, s)
  {
    TouchedEffect(cfg, d, id);
    UpdatedValid(Touched(cfg, d, id), id, s);
  }

  lemma OneMoreKept(cfg: Settings, s: Session, record: Record)
    requires Kept(cfg, s)
    ensures Kept(cfg, WithTurn(cfg, s, record))
  {
  }

  lemma BecameAgain(d: Sessions, e: Sessions, f: Sessions, id: string, s: Session, t: Session)
    requires (e == d || Became(d, e, id, s)) && Became(e, f, id, t)
    ensures Became(d, f, id, t)
  {
  }

  lemma {:induction false} AppendEffect(cfg: Settings, d: Sessions, id: string, records: seq<Record>)
    returns (s: Session)
    requires Bounds(cfg, d) && forall i :: 0 <= i < |records| ==> records[i].sessionId == id
    requires Kept(cfg, SessionOf(d, id))
    ensures Kept(cfg, s)
    ensures s.recorded == SessionOf(d, id).recorded + |records| && s.summarised == SessionOf(d, id).summarised
    ensures var e := AppendedAll(cfg, d, records);
            Bounds(cfg, e) && if records == [] then e == d && s == SessionOf(d, id) else Became(d, e, id, s)
  {
    s := SessionOf(d, id);
    if records != [] {
      var before, last := records[..|records| - 1], records[|records| - 1];
      var prior := AppendEffect(cfg, d, id, before);
      var e := AppendedAll(cfg, d, before);
      assert SessionOf(e, id) == prior;
      s := WithTurn(cfg, prior, last);
      OneMoreKept(cfg, prior, last);
      UpdateEffect(cfg, e, id, s);
      BecameAgain(d, e, AppendedAll(cfg, d, records), id, prior, s);
    }
  }

  lemma FreshKept(cfg: Settings, d: Sessions, id: string, paired: bool)
    requires Between(cfg, d, paired)
    ensures Kept(cfg, SessionOf(d, id)) && Waiting(cfg, SessionOf(d, id), paired)
    ensures HistoryOf(d, id, 1) == [] ==> SessionOf(d, id).recorded == 0
  {
  }

  /** During an exchange at most two turns join the backlog, and the window has room for them. */
  lemma AppendsLossless(cfg: Settings, d: Sessions, id: string, records: seq<Record>, paired: bool)
    requires Between(cfg, d, paired) && cfg.window >= WindowNeeded(cfg.summaryAfter, paired)
    requires |records| <= 2 && forall i :: 0 <= i < |records| ==> records[i].sessionId == id
    ensures NothingLost(AppendedAll(cfg, d, records))
  {
    FreshKept(cfg, d, id, paired);
    var s := AppendEffect(cfg, d, id, records);
  }

  /** `d` with session `id` now `s`; a session without turns need not be there. */
  ghost predicate Reached(cfg: Settings, d: Sessions, e: Sessions, id: string, s: Session) {
    Bounds(cfg, e) && if e == d then s == SessionOf(d, id) else Became(d, e, id, s)
  }

  lemma SettledAt(cfg: Settings, d: Sessions, e: Sessions, id: string, s: Session, paired: bool)
    requires Between(cfg, d, paired) && Reached(cfg, d, e, id, s) && Kept(cfg, s) && Waiting(cfg, s, paired)
    ensures Between(cfg, e, paired)
  {
  }

  lemma TwoTurns(id: string, query: string, answer: string)
    ensures |Turns(id, query, answer)| == (if query != "" then 1 else 0) + (if answer != "" then 1 else 0)
    ensures forall i :: 0 <= i < |Turns(id, query, answer)| ==> Turns(id, query, answer)[i].sessionId == id
  {
  }

  lemma ExchangeAppended(cfg: Settings, d: Sessions, id: string, query: string, answer: string, paired: bool)
    returns (s: Session)
    requires Between(cfg, d, paired)
    ensures Reached(cfg, d, AppendedAll(cfg, d, Turns(id, query, answer)), id, s) && Kept(cfg, s)
    ensures s.recorded == SessionOf(d, id).recorded + |Turns(id, query, answer)|
    ensures s.summarised == SessionOf(d, id).summarised && Waiting(cfg, SessionOf(d, id), paired)
  {
    FreshKept(cfg, d, id, paired);
    TwoTurns(id, query, answer);
    s := AppendEffect(cfg, d, id, Turns(id, query, answer));
  }

  lemma BacklogGrows(cfg: Settings, before: Session, s: Session, n: nat, paired: bool)
    requires Waiting(cfg, before, paired) && n <= 2 && (paired ==> n == 2)
    requires s.recorded == before.recorded + n && s.summarised == before.summarised
    ensures s.recorded - s.summarised <= Backlog(cfg.summaryAfter, paired) + 2
    ensures paired ==> (s.recorded - s.summarised) % 2 == 0
  {
  }

  lemma SettledAfterHit(cfg: Settings, d: Sessions, e: Exchange, paired: bool)
    requires Between(cfg, d, paired) && e.CacheHit? && Possible(d, e, paired)
    ensures Between(cfg, After(cfg, d, e), paired)
  {
    FreshKept(cfg, d, e.id, paired);
    TwoTurns(e.id, e.query, e.answer);
    var s := ExchangeAppended(cfg, d, e.id, e.query, e.answer, paired);
    SettledAt(cfg, d, AppendedAll(cfg, d, Turns(e.id, e.query, e.answer)), e.id, s, paired);
  }

  lemma SummaryReached(cfg: Settings, d: Sessions, e: Sessions, id: string, s: Session, summary: string)
    requires Reached(cfg, d, e, id, s) && Bounds(cfg, d) && SessionOf(e, id) == s
    ensures Reached(cfg, d, Summarised(cfg, e, id, summary), id, s.(summary := summary, summarised := s.recorded))
  {
    UpdateEffect(cfg, e, id, s.(summary := summary, summarised := s.recorded));
  }

  /** A summary covers everything recorded, so the backlog never reaches its trigger. */
  lemma SettledBySummary(cfg: Settings, d: Sessions, e: Sessions, id: string, s: Session, reply: Reply, paired: bool)
    requires Between(cfg, d, paired) && Reached(cfg, d, e, id, s) && reply.summary.Some?
    requires Kept(cfg, s) && s.recorded - s.summarised <= Backlog(cfg.summaryAfter, paired) + 2
    requires paired ==> (s.recorded - s.summarised) % 2 == 0
    ensures Between(cfg, MaybeSummarised(cfg, e, id, reply), paired)
  {
    if PendingOf(e, id) >= cfg.summaryAfter {
      var summary := Strip(reply.summary.value);
      SummaryReached(cfg, d, e, id, s, summary);
      SettledAt(cfg, d, Summarised(cfg, e, id, summary), id, s.(summary := summary, summarised := s.recorded), paired);
    } else {
      SettledAt(cfg, d, e, id, s, paired);
    }
  }

  lemma FactsReached(cfg: Settings, d: Sessions, id: string, facts: seq<Fact>, paired: bool)
    requires Between(cfg, d, paired)
    ensures Between(cfg, Updated(Touched(cfg, d, id), id, SessionOf(d, id).(facts := facts)), paired)
  {
    var s := SessionOf(d, id).(facts := facts);
    FreshKept(cfg, d, id, paired);
    UpdateEffect(cfg, d, id, s);
    SettledAt(cfg, d, Updated(Touched(cfg, d, id), id, s), id, s, paired);
  }

  lemma SettledByExtraction(cfg: Settings, d: Sessions, id: string, query: string, reply: Reply, paired: bool)
    requires Between(cfg, d, paired)
    ensures Between(cfg, MaybeExtracted(cfg, true, d, id, query, reply), paired)
  {
    if query != "" && reply.facts.Some? && reply.facts.value != [] {
      FactsReached(cfg, d, id, Merged(SessionOf(d, id).facts, reply.facts.value, cfg.maxUserFacts), paired);
    }
  }

  lemma SettledAfterRun(cfg: Settings, d: Sessions, e: Exchange, paired: bool)
    requires Between(cfg, d, paired) && e.GraphRun? && Possible(d, e, paired)
    ensures Between(cfg, After(cfg, d, e), paired)
  {
    var s := ExchangeAppended(cfg, d, e.id, e.query, e.answer, paired);
    TwoTurns(e.id, e.query, e.answer);
    BacklogGrows(cfg, SessionOf(d, e.id), s, |Turns(e.id, e.query, e.answer)|, paired);
    var appended := AppendedAll(cfg, d, Turns(e.id, e.query, e.answer));
    SettledBySummary(cfg, d, appended, e.id, s, e.reply, paired);
    SettledByExtraction(cfg, MaybeSummarised(cfg, appended, e.id, e.reply), e.id, e.query, e.reply, paired);
  }

  lemma Settled(cfg: Settings, d: Sessions, e: Exchange, paired: bool)
    requires Between(cfg, d, paired) && Possible(d, e, paired)
    ensures Between(cfg, After(cfg, d, e), paired)
  {
    match e
    case GraphRun(_, _, _, _) => SettledAfterRun(cfg, d, e, paired);
    case CacheHit(_, _, _) => SettledAfterHit(cfg, d, e, paired);
    case Forget(id) => WithoutValid(d, id);
  }

  lemma BacklogFits(cfg: Settings, d: Sessions, paired: bool)
    requires Between(cfg, d, paired) && cfg.window >= WindowNeeded(cfg.summaryAfter, paired)
    ensures NothingLost(d)
  {
  }

  lemma TurnsFit(cfg: Settings, d: Sessions, e: Exchange, i: nat, paired: bool)
    requires Between(cfg, d, paired) && cfg.window >= WindowNeeded(cfg.summaryAfter, paired)
    requires i <= |TurnsOf(e)|
    ensures NothingLost(AppendedAll(cfg, d, TurnsOf(e)[..i]))
  {
    if !e.Forget? {
      TwoTurns(e.id, e.query, e.answer);
    }
    AppendsLossless(cfg, d, e.id, TurnsOf(e)[..i], paired);
  }

  lemma {:induction false} WindowSuffices(cfg: Settings, d: Sessions, events: seq<Exchange>, paired: bool)
    requires Between(cfg, d, paired) && cfg.window >= WindowNeeded(cfg.summaryAfter, paired)
    requires Run(cfg, d, events, paired)
    ensures Lossless(cfg, d, events)
    decreases |events|
  {
    if events != [] {
      var e := events[0];
      forall i | 0 <= i <= |TurnsOf(e)| ensures NothingLost(AppendedAll(cfg, d, TurnsOf(e)[..i])) {
        TurnsFit(cfg, d, e, i, paired);
      }
      Settled(cfg, d, e, paired);
      BacklogFits(cfg, After(cfg, d, e), paired);
      WindowSuffices(cfg, After(cfg, d, e), events[1..], paired);
    }
  }

  // --------------------------------------------------------- and no less is

  /** One exchange of `turns` turns whose reply has a summary to offer and no facts. */
  function Ask(turns: nat): Exchange {
    GraphRun("s", "q", if turns == 2 then "a" else "", Reply(Some(""), None))
  }

  /** The session has `pending` turns waiting and is otherwise sound. */
  ghost predicate Stands(cfg: Settings, d: Sessions, pending: int) {
    Bounds(cfg, d) && Kept(cfg, SessionOf(d, "s")) && PendingOf(d, "s") == pending
  }

  lemma AskEffect(cfg: Settings, d: Sessions, pending: int, turns: nat)
    requires Stands(cfg, d, pending) && 1 <= turns <= 2
    ensures |TurnsOf(Ask(turns))| == turns && Possible(d, Ask(turns), turns == 2) && Possible(d, Ask(turns), false)
    ensures Stands(cfg, AppendedAll(cfg, d, TurnsOf(Ask(turns))), pending + turns)
    ensures "s" in AppendedAll(cfg, d, TurnsOf(Ask(turns))).items
    ensures pending + turns < cfg.summaryAfter ==> Stands(cfg, After(cfg, d, Ask(turns)), pending + turns)
  {
    var e := Ask(turns);
    TwoTurns("s", e.query, e.answer);
    var s := AppendEffect(cfg, d, "s", TurnsOf(e));
  }

  lemma OneLoss(cfg: Settings, d: Sessions, e: Exchange, paired: bool)
    requires Possible(d, e, paired) && !NothingLost(AppendedAll(cfg, d, TurnsOf(e)))
    ensures Run(cfg, d, [e], paired) && !Lossless(cfg, d, [e])
  {
    var n := |TurnsOf(e)|;
    assert TurnsOf(e)[..n] == TurnsOf(e);
    assert !NothingLost(AppendedAll(cfg, d, TurnsOf(e)[..n]));
    assert [e][1..] == [];
  }

  lemma Overflows(cfg: Settings, d: Sessions, pending: int)
    requires Stands(cfg, d, pending) && pending > cfg.window
    ensures !NothingLost(d)
  {
    assert "s" in d.items;
  }

  /** With the backlog full, a two-sided exchange pushes an uncovered turn out. */
  lemma LastStraw(cfg: Settings, d: Sessions, paired: bool)
    requires Stands(cfg, d, Backlog(cfg.summaryAfter, paired)) && cfg.window < WindowNeeded(cfg.summaryAfter, paired)
    ensures Run(cfg, d, [Ask(2)], paired) && !Lossless(cfg, d, [Ask(2)])
  {
    AskEffect(cfg, d, Backlog(cfg.summaryAfter, paired), 2);
    Overflows(cfg, AppendedAll(cfg, d, TurnsOf(Ask(2))), WindowNeeded(cfg.summaryAfter, paired));
    OneLoss(cfg, d, Ask(2), paired);
  }

  lemma Prepended(cfg: Settings, d: Sessions, e: Exchange, rest: seq<Exchange>, paired: bool)
    requires Possible(d, e, paired)
    requires Run(cfg, After(cfg, d, e), rest, paired) && !Lossless(cfg, After(cfg, d, e), rest)
    ensures Run(cfg, d, [e] + rest, paired) && !Lossless(cfg, d, [e] + rest)
  {
    assert ([e] + rest)[1..] == rest;
  }

  function Stride(paired: bool): nat {
    if paired then 2 else 1
  }

  lemma StrideFits(interval: nat, pending: int, paired: bool)
    requires interval > 3 && 0 <= pending < Backlog(interval, paired) && (paired ==> pending % 2 == 0)
    ensures pending + Stride(paired) <= Backlog(interval, paired) && pending + Stride(paired) < interval
    ensures paired ==> (pending + Stride(paired)) % 2 == 0
  {
  }

  lemma {:induction false} Climb(cfg: Settings, d: Sessions, pending: int, paired: bool) returns (events: seq<Exchange>)
    requires Stands(cfg, d, pending) && 0 <= pending <= Backlog(cfg.summaryAfter, paired) && cfg.summaryAfter > 3
    requires paired ==> pending % 2 == 0
    requires cfg.window < WindowNeeded(cfg.summaryAfter, paired)
    ensures Run(cfg, d, events, paired) && !Lossless(cfg, d, events)
    decreases Backlog(cfg.summaryAfter, paired) - pending
  {
    if pending == Backlog(cfg.summaryAfter, paired) {
      LastStraw(cfg, d, paired);
      events := [Ask(2)];
    } else {
      var e := Ask(Stride(paired));
      StrideFits(cfg.summaryAfter, pending, paired);
      AskEffect(cfg, d, pending, Stride(paired));
      var rest := Climb(cfg, After(cfg, d, e), pending + Stride(paired), paired);
      Prepended(cfg, d, e, rest, paired);
      events := [e] + rest;
    }
  }

  /** A first question served from the cache leaves two turns that nothing has summarised. */
  lemma HitThenAsk(cfg: Settings, paired: bool)
    requires Configured(cfg) && cfg.summaryAfter <= 3 && cfg.window < 4
    ensures var events := [CacheHit("s", "q", "a"), Ask(2)];
            Run(cfg, Empty(), events, paired) && !Lossless(cfg, Empty(), events)
  {
    var hit, d := CacheHit("s", "q", "a"), Empty();
    TwoTurns("s", "q", "a");
    var s := AppendEffect(cfg, d, "s", TurnsOf(hit));
    LastStraw(cfg, After(cfg, d, hit), paired);
    assert [hit, Ask(2)][1..] == [Ask(2)];
  }

  /** For every configuration: no turn is ever lost exactly when the window has
      the size `WindowNeeded` gives. The settings validator is weaker: it accepts
      a summary interval equal to the window, which loses a turn as soon as an
      exchange may be one-sided. */
  lemma NothingIsLostIff(cfg: Settings, paired: bool)
    requires Configured(cfg)
    ensures NeverLoses(cfg, paired) <==> cfg.window >= WindowNeeded(cfg.summaryAfter, paired)
    ensures !paired && cfg.summaryAfter == cfg.window ==> !NeverLoses(cfg, paired)
  {
    if cfg.window >= WindowNeeded(cfg.summaryAfter, paired) {
      forall events | Run(cfg, Empty(), events, paired) ensures Lossless(cfg, Empty(), events) {
        WindowSuffices(cfg, Empty(), events, paired);
      }
    } else if cfg.summaryAfter <= 3 {
      HitThenAsk(cfg, paired);
    } else {
      var events := Climb(cfg, Empty(), 0, paired);
    }
  }
}
