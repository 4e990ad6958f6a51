/** What a snapshot of a conversation holds, against everything that was said in it.

    A snapshot pairs the rolling summary with the newest turns. The theorems say
    which turns those are in every run, and when the two leave nothing out.
 */
module Transcripts {
  import opened OrderedDict
  import opened UserFacts
  import opened MemoryStore
  import opened MemoryWriter
  import opened MemoryCadence
  import opened Text

  /** Everything said in each session since it was last created, oldest turn first. */
  type Transcript = map<string, seq<Record>>

  /** What an exchange says: the question as the user's turn, then the answer as the
      assistant's, each only if there is one. */
  function Sides(id: string, query: string, answer: string): seq<Record> {
    if query != "" && answer != "" then [Record(id, User, query), Record(id, Assistant, answer)]
    else if query != "" then [Record(id, User, query)]
    else if answer != "" then [Record(id, Assistant, answer)]
    else []
  }

  function SidesOf(e: Exchange): seq<Record> {
    match e
    case GraphRun(id, query, answer, _) => Sides(id, query, answer)
    case CacheHit(id, query, answer) => Sides(id, query, answer)
    case Forget(_) => []
  }

  /** The sessions after a run. */
  function Played(cfg: Settings, d: Sessions, events: seq<Exchange>): Sessions
    decreases |events|
  {
    if events == [] then d else Played(cfg, After(cfg, d, events[0]), events[1..])
  }

  /** What has been said in session `id`; one that is not retained starts anew. */
  function SaidIn(d: Sessions, said: Transcript, id: string): seq<Record> {
    if id in d.items && id in said then said[id] else []
  }

  function Heard(cfg: Settings, d: Sessions, said: Transcript, events: seq<Exchange>): Transcript
    decreases |events|
  {
    if events == [] then said
    else
      var e := events[0];
      Heard(cfg, After(cfg, d, e), said[e.id := SaidIn(d, said, e.id) + SidesOf(e)], events[1..])
  }

  // ----------------------------------------------------- sessions and transcripts

  /** The session has counted everything said, and holds the newest of it. */
  ghost predicate Shows(cfg: Settings, s: Session, said: seq<Record>) {
    s.recorded == |said| && s.turns == Last(said, cfg.window)
  }

  ghost predicate AllShown(cfg: Settings, d: Sessions, said: Transcript) {
    Bounds(cfg, d) && forall id :: id in d.items ==> id in said && Shows(cfg, d.items[id], said[id])
  }

  /** `e` is `d` with session `id` changed to one that shows `said`, and perhaps another one evicted. */
  ghost predicate ShowsNow(cfg: Settings, d: Sessions, e: Sessions, id: string, said: seq<Record>) {
    && Bounds(cfg, e) && Shows(cfg, SessionOf(e, id), said)
    && forall x :: x in e.items && x != id ==> x in d.items && e.items[x] == d.items[x]
  }

  lemma UpdateShows(cfg: Settings, d: Sessions, e: Sessions, id: string, s: Session, before: seq<Record>,
                    said: seq<Record>)
    requires ShowsNow(cfg, d, e, id, before) && Shows(cfg, s, said)
    ensures ShowsNow(cfg, d, Updated(Touched(cfg, e, id), id, s), id, said)
  {
    UpdateEffect(cfg, e, id, s);
  }

  lemma OneMoreShown(cfg: Settings, s: Session, said: seq<Record>, record: Record)
    requires Shows(cfg, s, said)
    ensures Shows(cfg, WithTurn(cfg, s, record), said + [record])
  {
    var w, t := cfg.window, Last(said, cfg.window);
    if |said| > w {
      assert (said + [record])[|said| + 1 - w..] == (t + [record])[1..];
    }
  }

  lemma {:induction false} AppendShows(cfg: Settings, d: Sessions, id: string, records: seq<Record>, said: seq<Record>)
    requires ShowsNow(cfg, d, d, id, said) && forall i :: 0 <= i < |records| ==> records[i].sessionId == id
    ensures ShowsNow(cfg, d, AppendedAll(cfg, d, records), id, said + records)
  {
    if records == [] {
      assert said + records == said;
    } else {
      var before, last := records[..|records| - 1], records[|records| - 1];
      AppendShows(cfg, d, id, before, said);
      var e := AppendedAll(cfg, d, before);
      OneMoreShown(cfg, SessionOf(e, id), said + before, last);
      LastApart(said, records);
      UpdateShows(cfg, d, e, id, WithTurn(cfg, SessionOf(e, id), last), said + before, said + records);
    }
  }

  lemma LastApart<T>(s: seq<T>, t: seq<T>)
    requires t != []
    ensures s + t == (s + t[..|t| - 1]) + [t[|t| - 1]]
  {
  }

  lemma SummaryShows(cfg: Settings, d: Sessions, e: Sessions, id: string, reply: Reply, said: seq<Record>)
    requires ShowsNow(cfg, d, e, id, said)
    ensures ShowsNow(cfg, d, MaybeSummarised(cfg, e, id, reply), id, said)
  {
    if PendingOf(e, id) >= cfg.summaryAfter && reply.summary.Some? {
      var s := SessionOf(e, id);
      UpdateShows(cfg, d, e, id, s.(summary := Strip(reply.summary.value), summarised := s.recorded), said, said);
    }
  }

  lemma FactsShow(cfg: Settings, extract: bool, d: Sessions, e: Sessions, id: string, query: string, reply: Reply,
                  said: seq<Record>)
    requires ShowsNow(cfg, d, e, id, said)
    ensures ShowsNow(cfg, d, MaybeExtracted(cfg, extract, e, id, query, reply), id, said)
  {
    if extract && query != "" && reply.facts.Some? && reply.facts.value != [] {
      var s := SessionOf(e, id);
      UpdateShows(cfg, d, e, id, s.(facts := Merged(s.facts, reply.facts.value, cfg.maxUserFacts)), said, said);
    }
  }

  lemma TurnsAreSides(id: string, query: string, answer: string)
    ensures Turns(id, query, answer) == Sides(id, query, answer)
  {
  }

  /** Both turns of an exchange, as a cache hit leaves them. */
  lemma SidesShow(cfg: Settings, d: Sessions, id: string, query: string, answer: string, said: seq<Record>)
    requires ShowsNow(cfg, d, d, id, said)
    ensures ShowsNow(cfg, d, AppendedAll(cfg, d, Turns(id, query, answer)), id, said + Sides(id, query, answer))
  {
    TwoTurns(id, query, answer);
    TurnsAreSides(id, query, answer);
    AppendShows(cfg, d, id, Turns(id, query, answer), said);
  }

  /** And as a graph run leaves them, summarised and extracted or not. */
  lemma WrittenShows(cfg: Settings, extract: bool, d: Sessions, id: string, query: string, answer: string, reply: Reply,
                     said: seq<Record>)
    requires ShowsNow(cfg, d, d, id, said)
    ensures ShowsNow(cfg, d, Written(cfg, extract, d, id, query, answer, reply), id, said + Sides(id, query, answer))
  {
    var now, appended := said + Sides(id, query, answer), AppendedAll(cfg, d, Turns(id, query, answer));
    SidesShow(cfg, d, id, query, answer, said);
    SummaryShows(cfg, d, appended, id, reply, now);
    FactsShow(cfg, extract, d, MaybeSummarised(cfg, appended, id, reply), id, query, reply, now);
  }

  lemma ExchangeShows(cfg: Settings, d: Sessions, e: Exchange, said: seq<Record>)
    requires ShowsNow(cfg, d, d, e.id, said) && !e.Forget?
    ensures ShowsNow(cfg, d, After(cfg, d, e), e.id, said + SidesOf(e))
  {
    if e.GraphRun? {
      WrittenShows(cfg, true, d, e.id, e.query, e.answer, e.reply, said);
    } else {
      SidesShow(cfg, d, e.id, e.query, e.answer, said);
    }
  }

  lemma StaysShown(cfg: Settings, d: Sessions, said: Transcript, e: Exchange)
    requires AllShown(cfg, d, said)
    ensures AllShown(cfg, After(cfg, d, e), said[e.id := SaidIn(d, said, e.id) + SidesOf(e)])
  {
    var before := SaidIn(d, said, e.id);
    if e.Forget? {
      ForgetShown(cfg, d, said, e.id, before + SidesOf(e));
    } else {
      SaidShows(cfg, d, said, e.id);
      ExchangeShows(cfg, d, e, before);
      OneChanged(cfg, d, After(cfg, d, e), said, e.id, before + SidesOf(e));
    }
  }

  lemma SaidShows(cfg: Settings, d: Sessions, said: Transcript, id: string)
    requires AllShown(cfg, d, said)
    ensures ShowsNow(cfg, d, d, id, SaidIn(d, said, id))
  {
  }

  lemma OneChanged(cfg: Settings, d: Sessions, next: Sessions, said: Transcript, id: string, t: seq<Record>)
    requires AllShown(cfg, d, said) && ShowsNow(cfg, d, next, id, t)
    ensures AllShown(cfg, next, said[id := t])
  {
  }

  lemma ForgetShown(cfg: Settings, d: Sessions, said: Transcript, id: string, t: seq<Record>)
    requires AllShown(cfg, d, said)
    ensures AllShown(cfg, Without(d, id), said[id := t])
  {
    WithoutValid(d, id);
  }

  lemma {:induction false} AlwaysShown(cfg: Settings, d: Sessions, said: Transcript, events: seq<Exchange>)
    requires AllShown(cfg, d, said)
    ensures AllShown(cfg, Played(cfg, d, events), Heard(cfg, d, said, events))
    decreases |events|
  {
    if events != [] {
      var e := events[0];
      StaysShown(cfg, d, said, e);
      AlwaysShown(cfg, After(cfg, d, e), said[e.id := SaidIn(d, said, e.id) + SidesOf(e)], events[1..]);
    }
  }

  // --------------------------------------------------------------- snapshots

  /** In every run - whatever the replies, one-sided exchanges, evictions and
      clearings - a snapshot counts every turn said in its session since it was
      created, and shows the newest of them, as many as the window holds. */
  lemma SnapshotShows(cfg: Settings, events: seq<Exchange>, id: string)
    requires Configured(cfg)
    ensures var d, said := Played(cfg, Empty(), events), Heard(cfg, Empty(), map[], events);
            var t, snapshot := SaidIn(d, said, id), SnapshotOf(cfg, d, id);
            && snapshot.recorded == |t|
            && |snapshot.recent| == (if |t| < cfg.window then |t| else cfg.window)
            && snapshot.recent == t[|t| - |snapshot.recent|..]
  {
    AlwaysShown(cfg, Empty(), map[], events);
  }

  lemma {:induction false} AlwaysSettled(cfg: Settings, d: Sessions, events: seq<Exchange>, paired: bool)
    requires Between(cfg, d, paired) && Run(cfg, d, events, paired)
    ensures Between(cfg, Played(cfg, d, events), paired)
    decreases |events|
  {
    if events != [] {
      Settled(cfg, d, events[0], paired);
      AlwaysSettled(cfg, After(cfg, d, events[0]), events[1..], paired);
    }
  }

  lemma NeverBehind(cfg: Settings, events: seq<Exchange>, id: string, paired: bool)
    requires Configured(cfg) && cfg.window >= WindowNeeded(cfg.summaryAfter, paired)
    requires Run(cfg, Empty(), events, paired)
    ensures var d := Played(cfg, Empty(), events);
            var snapshot, summarised := SnapshotOf(cfg, d, id), SessionOf(d, id).summarised;
            summarised <= snapshot.recorded <= summarised + |snapshot.recent|
  {
    AlwaysSettled(cfg, Empty(), events, paired);
    BehindBy(cfg, Played(cfg, Empty(), events), id, paired);
  }

  lemma BehindBy(cfg: Settings, d: Sessions, id: string, paired: bool)
    requires Between(cfg, d, paired) && cfg.window >= WindowNeeded(cfg.summaryAfter, paired)
    ensures var snapshot, summarised := SnapshotOf(cfg, d, id), SessionOf(d, id).summarised;
            summarised <= snapshot.recorded <= summarised + |snapshot.recent|
  {
    BacklogFits(cfg, d, paired);
  }

  lemma NothingBetween<T>(t: seq<T>, recent: seq<T>, covered: nat)
    requires |recent| <= |t| <= covered + |recent| && recent == t[|t| - |recent|..]
    ensures exists older :: t == older + recent && |older| <= covered
  {
    assert t == t[..|t| - |recent|] + recent;
  }

  /** With the window the summary interval needs, summary and recent turns leave
      nothing out: every turn older than the recent ones is one of those the
      summary was written over. */
  lemma SnapshotMissesNothing(cfg: Settings, events: seq<Exchange>, id: string, paired: bool)
    requires Configured(cfg) && cfg.window >= WindowNeeded(cfg.summaryAfter, paired)
    requires Run(cfg, Empty(), events, paired)
    ensures var d, said := Played(cfg, Empty(), events), Heard(cfg, Empty(), map[], events);
            var t, summarised := SaidIn(d, said, id), SessionOf(d, id).summarised;
            summarised <= |t| && exists older ::
              t == older + SnapshotOf(cfg, d, id).recent && |older| <= summarised
  {
    var d, said := Played(cfg, Empty(), events), Heard(cfg, Empty(), map[], events);
    SnapshotShows(cfg, events, id);
    NeverBehind(cfg, events, id, paired);
    NothingBetween(SaidIn(d, said, id), SnapshotOf(cfg, d, id).recent, SessionOf(d, id).summarised);
  }

  // ------------------------------------------------------- the last exchange

  /** The records at the end of a snapshot. */
  ghost predicate EndsWith(snapshot: Snapshot, records: seq<Record>) {
    |snapshot.recent| >= |records| && snapshot.recent[|snapshot.recent| - |records|..] == records
  }

  lemma LastEnds<T>(t: seq<T>, sides: seq<T>, n: nat)
    requires |sides| <= n
    ensures |sides| <= |Last(t + sides, n)| && Last(t + sides, n)[|Last(t + sides, n)| - |sides|..] == sides
  {
  }

  lemma SnapshotOfShown(cfg: Settings, d: Sessions, id: string, t: seq<Record>)
    requires Bounds(cfg, d) && Shows(cfg, SessionOf(d, id), t)
    ensures SnapshotOf(cfg, d, id).recorded == |t| && SnapshotOf(cfg, d, id).recent == Last(t, cfg.window)
  {
  }

  /** What a session that shows `t` ends with after one exchange more. */
  lemma ExchangeEnds(cfg: Settings, d: Sessions, e: Exchange, t: seq<Record>)
    requires ShowsNow(cfg, d, d, e.id, t) && !e.Forget?
    ensures var before, snapshot := SnapshotOf(cfg, d, e.id), SnapshotOf(cfg, After(cfg, d, e), e.id);
            && snapshot.recorded == before.recorded + |SidesOf(e)|
            && (|SidesOf(e)| <= cfg.window ==> EndsWith(snapshot, SidesOf(e)))
  {
    ExchangeShows(cfg, d, e, t);
    SnapshotOfShown(cfg, d, e.id, t);
    SnapshotOfShown(cfg, After(cfg, d, e), e.id, t + SidesOf(e));
    if |SidesOf(e)| <= cfg.window {
      LastEnds(t, SidesOf(e), cfg.window);
    }
  }

  /** Whatever a session's window holds is the newest of something that was said. */
  lemma SomethingWasSaid(cfg: Settings, s: Session) returns (t: seq<Record>)
    requires MemoryCadence.Kept(cfg, s)
    ensures Shows(cfg, s, t)
  {
    t := s.turns;
    if s.recorded > |s.turns| {
      var missing := seq(s.recorded - |s.turns|, _ => Record("", User, ""));
      t := missing + s.turns;
    }
  }

  /** After any run, one exchange more is what the session ends with: the question as
      the user's, then the answer as the assistant's; a side that is empty leaves no turn. */
  lemma LastExchange(cfg: Settings, events: seq<Exchange>, e: Exchange)
    requires Configured(cfg) && !e.Forget?
    ensures var d := Played(cfg, Empty(), events);
            var before, snapshot := SnapshotOf(cfg, d, e.id), SnapshotOf(cfg, After(cfg, d, e), e.id);
            && (e.query != "" && e.answer != "" ==>
                  && snapshot.recorded == before.recorded + 2
                  && (cfg.window >= 2 ==>
                        EndsWith(snapshot, [Record(e.id, User, e.query), Record(e.id, Assistant, e.answer)])))
            && (e.query != "" && e.answer == "" ==>
                  snapshot.recorded == before.recorded + 1 && EndsWith(snapshot, [Record(e.id, User, e.query)]))
            && (e.query == "" && e.answer != "" ==>
                  snapshot.recorded == before.recorded + 1 && EndsWith(snapshot, [Record(e.id, Assistant, e.answer)]))
            && (e.query == "" && e.answer == "" ==> snapshot.recorded == before.recorded)
  {
    var d, said := Played(cfg, Empty(), events), Heard(cfg, Empty(), map[], events);
    AlwaysShown(cfg, Empty(), map[], events);
    SaidShows(cfg, d, said, e.id);
    ExchangeEnds(cfg, d, e, SaidIn(d, said, e.id));
  }

  // ------------------------------------------------------ summary and facts

  /** Appending turns leaves summary and facts alone. */
  lemma {:induction false} AppendKeeps(cfg: Settings, d: Sessions, id: string, records: seq<Record>)
    requires Bounds(cfg, d) && forall i :: 0 <= i < |records| ==> records[i].sessionId == id
    ensures Bounds(cfg, AppendedAll(cfg, d, records))
    ensures var before, s := SessionOf(d, id), SessionOf(AppendedAll(cfg, d, records), id);
            && s.summary == before.summary && s.facts == before.facts && s.summarised == before.summarised
            && s.recorded == before.recorded + |records|
  {
    if records != [] {
      var before, last := records[..|records| - 1], records[|records| - 1];
      AppendKeeps(cfg, d, id, before);
      var e := AppendedAll(cfg, d, before);
      UpdateEffect(cfg, e, id, WithTurn(cfg, SessionOf(e, id), last));
    }
  }

  /** What one exchange makes of summary and facts, told from its replies. */
  ghost predicate Remembers(cfg: Settings, e: Exchange, before: Session, after: Session) {
    var recorded := before.recorded + |SidesOf(e)|;
    match e
    case GraphRun(_, query, _, reply) =>
      var due := reply.summary.Some? && recorded - before.summarised >= cfg.summaryAfter;
      && after.summary == (if due then Strip(reply.summary.value) else before.summary)
      && after.summarised == (if due then recorded else before.summarised)
      && after.facts == (if query != "" && reply.facts.Some? && reply.facts.value != []
                         then Merged(before.facts, reply.facts.value, cfg.maxUserFacts) else before.facts)
    case _ => after.summary == before.summary && after.summarised == before.summarised && after.facts == before.facts
  }

  lemma SummaryRemembers(cfg: Settings, e: Sessions, id: string, reply: Reply)
    requires Bounds(cfg, e)
    ensures Bounds(cfg, MaybeSummarised(cfg, e, id, reply))
    ensures var before, s := SessionOf(e, id), SessionOf(MaybeSummarised(cfg, e, id, reply), id);
            var due := reply.summary.Some? && before.recorded - before.summarised >= cfg.summaryAfter;
            && s.summary == (if due then Strip(reply.summary.value) else before.summary)
            && s.summarised == (if due then before.recorded else before.summarised)
            && s.facts == before.facts
  {
    var s := SessionOf(e, id);
    if PendingOf(e, id) >= cfg.summaryAfter && reply.summary.Some? {
      UpdateEffect(cfg, e, id, s.(summary := Strip(reply.summary.value), summarised := s.recorded));
    }
  }

  lemma FactsRemembered(cfg: Settings, e: Sessions, id: string, query: string, reply: Reply)
    requires Bounds(cfg, e)
    ensures var before, s := SessionOf(e, id), SessionOf(MaybeExtracted(cfg, true, e, id, query, reply), id);
            && s.summary == before.summary && s.summarised == before.summarised
            && s.facts == (if query != "" && reply.facts.Some? && reply.facts.value != []
                           then Merged(before.facts, reply.facts.value, cfg.maxUserFacts) else before.facts)
  {
    if query != "" && reply.facts.Some? && reply.facts.value != [] {
      var s := SessionOf(e, id);
      UpdateEffect(cfg, e, id, s.(facts := Merged(s.facts, reply.facts.value, cfg.maxUserFacts)));
    }
  }

  /** A snapshot shows the session's summary, facts and count. */
  ghost predicate Exposes(s: Session, t: Snapshot) {
    t.summary == s.summary && t.facts == s.facts && t.recorded == s.recorded
  }

  lemma SnapshotExposes(cfg: Settings, d: Sessions, id: string)
    ensures Exposes(SessionOf(d, id), SnapshotOf(cfg, d, id))
  {
  }

  lemma HitRemembers(cfg: Settings, d: Sessions, e: Exchange)
    requires Bounds(cfg, d) && e.CacheHit?
    ensures Remembers(cfg, e, SessionOf(d, e.id), SessionOf(After(cfg, d, e), e.id))
  {
    TwoTurns(e.id, e.query, e.answer);
    AppendKeeps(cfg, d, e.id, Turns(e.id, e.query, e.answer));
  }

  lemma LiveRemembers(cfg: Settings, d: Sessions, e: Exchange)
    requires Bounds(cfg, d) && e.GraphRun?
    ensures Remembers(cfg, e, SessionOf(d, e.id), SessionOf(After(cfg, d, e), e.id))
  {
    TwoTurns(e.id, e.query, e.answer);
    TurnsAreSides(e.id, e.query, e.answer);
    AppendKeeps(cfg, d, e.id, Turns(e.id, e.query, e.answer));
    var appended := AppendedAll(cfg, d, Turns(e.id, e.query, e.answer));
    SummaryRemembers(cfg, appended, e.id, e.reply);
    FactsRemembered(cfg, MaybeSummarised(cfg, appended, e.id, e.reply), e.id, e.query, e.reply);
  }

  /** Every exchange leaves the session the summary the model wrote, if one was due,
      over everything recorded by then; and the facts it found merged into the old. */
  lemma MemoryFollowsReplies(cfg: Settings, d: Sessions, e: Exchange)
    requires Bounds(cfg, d) && !e.Forget?
    ensures var after := After(cfg, d, e);
            && Remembers(cfg, e, SessionOf(d, e.id), SessionOf(after, e.id))
            && Exposes(SessionOf(after, e.id), SnapshotOf(cfg, after, e.id))
  {
    SnapshotExposes(cfg, After(cfg, d, e), e.id);
    if e.GraphRun? {
      LiveRemembers(cfg, d, e);
    } else {
      HitRemembers(cfg, d, e);
    }
  }
}
