/** Which conversations are remembered: the most recently used ones, as many as fit. */
module SessionRetention {
  import opened Wrappers
  import opened OrderedDict
  import opened MemoryStore
  import opened MemoryWriter
  import opened MemoryCadence
  import opened Text
  import opened Transcripts
  import opened UserFacts
  import Lru = LruStore

  /** Something is said in a session. */
  predicate Speaks(e: Exchange) {
    !e.Forget? && (e.query != "" || e.answer != "")
  }

  /** Something was said in session `id`, and it was not cleared since. */
  predicate Spoken(events: seq<Exchange>, id: string) {
    if events == [] then false
    else
      var e := events[|events| - 1];
      if e.id == id then !e.Forget? else Spoken(events[..|events| - 1], id)
  }

  /** The other sessions something was said in after session `id` was last used. */
  function OthersSince(events: seq<Exchange>, id: string): set<string> {
    if events == [] then {}
    else
      var e, before := events[|events| - 1], OthersSince(events[..|events| - 1], id);
      if e.Forget? then before else if e.id == id then {} else before + {e.id}
  }

  /** Every exchange says something or clears a session. */
  ghost predicate AllCount(events: seq<Exchange>) {
    forall i :: 0 <= i < |events| ==> events[i].Forget? || Speaks(events[i])
  }

  // --------------------------------------------------- the order of sessions

  /** The order after session `id` was used: it is newest, and the oldest leave if there is no room. */
  function OrderAfter(order: seq<string>, id: string, max: nat): seq<string> {
    Last(Drop(order, id) + [id], max)
  }

  lemma TouchedOrder(cfg: Settings, d: Sessions, id: string)
    requires Bounds(cfg, d)
    ensures Touched(cfg, d, id).order == OrderAfter(d.order, id, cfg.maxSessions)
  {
    PutLastValid(d, id, FRESH);
    if id !in d.items {
      PutLastNew(d, id, FRESH);
    }
  }

  lemma UsedAgain(order: seq<string>, id: string, max: nat)
    requires Distinct(order) && max > 0 && |order| <= max && order != [] && order[|order| - 1] == id
    ensures OrderAfter(order, id, max) == order
  {
    var n := |order| - 1;
    PositionAt(order, n);
    assert order[..n] + order[n + 1..] + [id] == order;
  }

  lemma NewestIsLast(order: seq<string>, id: string, max: nat)
    requires max > 0
    ensures var after := OrderAfter(order, id, max); after != [] && after[|after| - 1] == id
  {
  }

  /** `e` is `d` after session `id` was used. */
  ghost predicate UsedNow(cfg: Settings, d: Sessions, e: Sessions, id: string) {
    Bounds(cfg, e) && e.order == OrderAfter(d.order, id, cfg.maxSessions)
  }

  lemma UseOnce(cfg: Settings, d: Sessions, id: string, s: Session)
    requires Bounds(cfg, d)
    ensures UsedNow(cfg, d, Updated(Touched(cfg, d, id), id, s), id)
  {
    UpdateEffect(cfg, d, id, s);
    TouchedOrder(cfg, d, id);
  }

  lemma UseTwice(cfg: Settings, d: Sessions, e: Sessions, id: string, s: Session)
    requires UsedNow(cfg, d, e, id)
    ensures UsedNow(cfg, d, Updated(Touched(cfg, e, id), id, s), id)
  {
    UseOnce(cfg, e, id, s);
    NewestIsLast(d.order, id, cfg.maxSessions);
    UsedAgain(e.order, id, cfg.maxSessions);
  }

  lemma {:induction false} AppendUses(cfg: Settings, d: Sessions, id: string, records: seq<Record>)
    requires Bounds(cfg, d) && records != [] && forall i :: 0 <= i < |records| ==> records[i].sessionId == id
    ensures UsedNow(cfg, d, AppendedAll(cfg, d, records), id)
  {
    var before, last := records[..|records| - 1], records[|records| - 1];
    var e := AppendedAll(cfg, d, before);
    if before == [] {
      UseOnce(cfg, d, id, WithTurn(cfg, SessionOf(d, id), last));
    } else {
      AppendUses(cfg, d, id, before);
      UseTwice(cfg, d, e, id, WithTurn(cfg, SessionOf(e, id), last));
    }
  }

  lemma ExchangeUses(cfg: Settings, d: Sessions, e: Exchange)
    requires Bounds(cfg, d) && Speaks(e)
    ensures UsedNow(cfg, d, After(cfg, d, e), e.id)
  {
    var appended := AppendedAll(cfg, d, Turns(e.id, e.query, e.answer));
    TwoTurns(e.id, e.query, e.answer);
    AppendUses(cfg, d, e.id, Turns(e.id, e.query, e.answer));
    if e.GraphRun? {
      SummaryUses(cfg, d, appended, e.id, e.reply);
      FactsUse(cfg, d, MaybeSummarised(cfg, appended, e.id, e.reply), e.id, e.query, e.reply);
    }
  }

  lemma SummaryUses(cfg: Settings, d: Sessions, e: Sessions, id: string, reply: Reply)
    requires UsedNow(cfg, d, e, id)
    ensures UsedNow(cfg, d, MaybeSummarised(cfg, e, id, reply), id)
  {
    if PendingOf(e, id) >= cfg.summaryAfter && reply.summary.Some? {
      var s := SessionOf(e, id);
      UseTwice(cfg, d, e, id, s.(summary := Strip(reply.summary.value), summarised := s.recorded));
    }
  }

  lemma FactsUse(cfg: Settings, d: Sessions, e: Sessions, id: string, query: string, reply: Reply)
    requires UsedNow(cfg, d, e, id)
    ensures UsedNow(cfg, d, MaybeExtracted(cfg, true, e, id, query, reply), id)
  {
    if query != "" && reply.facts.Some? && reply.facts.value != [] {
      var s := SessionOf(e, id);
      UseTwice(cfg, d, e, id, s.(facts := Merged(s.facts, reply.facts.value, cfg.maxUserFacts)));
    }
  }

  // ------------------------------------------------------- the same as a table

  /** What an exchange does to a least-recently-used table of sessions. */
  function UseOf(e: Exchange): Lru.Op<string, ()> {
    if e.Forget? then Lru.Delete(e.id) else Lru.Set(e.id, Lru.Slot((), None))
  }

  function Uses(events: seq<Exchange>): seq<Lru.Op<string, ()>> {
    seq(|events|, i requires 0 <= i < |events| => UseOf(events[i]))
  }

  lemma {:induction false} PlayedOneMore(cfg: Settings, d: Sessions, events: seq<Exchange>, e: Exchange)
    ensures Played(cfg, d, events + [e]) == After(cfg, Played(cfg, d, events), e)
    decreases |events|
  {
    if events == [] {
      assert [] + [e] == [e] && [e][1..] == [];
    } else {
      assert (events + [e])[1..] == events[1..] + [e];
      PlayedOneMore(cfg, After(cfg, d, events[0]), events[1..], e);
    }
  }

  lemma WriteOrder(t: Lru.Table<string, ()>, id: string, max: nat)
    requires Valid(t)
    ensures Valid(Lru.Write(t, max, id, Lru.Slot((), None)))
    ensures Lru.Write(t, max, id, Lru.Slot((), None)).order == OrderAfter(t.order, id, max)
  {
    PutLastValid(t, id, Lru.Slot((), None));
    TrimValid(PutLast(t, id, Lru.Slot((), None)), max);
    TrimOrder(PutLast(t, id, Lru.Slot((), None)), max);
  }

  /** The sessions stand in the order the table has its keys in. */
  ghost predicate SameOrder(cfg: Settings, d: Sessions, t: Lru.Table<string, ()>) {
    Bounds(cfg, d) && Valid(t) && d.order == t.order
  }

  lemma OneMoreUse(cfg: Settings, d: Sessions, t: Lru.Table<string, ()>, e: Exchange)
    requires SameOrder(cfg, d, t) && (e.Forget? || Speaks(e))
    ensures SameOrder(cfg, After(cfg, d, e), Lru.Apply(t, cfg.maxSessions, UseOf(e)))
  {
    if e.Forget? {
      WithoutValid(d, e.id);
      WithoutValid(t, e.id);
    } else {
      ExchangeUses(cfg, d, e);
      WriteOrder(t, e.id, cfg.maxSessions);
    }
  }

  lemma RunOneMore(max: nat, events: seq<Exchange>, e: Exchange)
    ensures Lru.Run(max, Uses(events + [e])) == Lru.Apply(Lru.Run(max, Uses(events)), max, UseOf(e))
  {
    var ops := Uses(events + [e]);
    assert ops[..|ops| - 1] == Uses(events) && ops[|ops| - 1] == UseOf(e);
  }

  lemma StillSameOrder(cfg: Settings, before: seq<Exchange>, e: Exchange)
    requires SameOrder(cfg, Played(cfg, Empty(), before), Lru.Run(cfg.maxSessions, Uses(before)))
    requires e.Forget? || Speaks(e)
    ensures SameOrder(cfg, Played(cfg, Empty(), before + [e]), Lru.Run(cfg.maxSessions, Uses(before + [e])))
  {
    PlayedOneMore(cfg, Empty(), before, e);
    RunOneMore(cfg.maxSessions, before, e);
    OneMoreUse(cfg, Played(cfg, Empty(), before), Lru.Run(cfg.maxSessions, Uses(before)), e);
  }

  /** One exchange more keeps `holds`. */
  ghost predicate Stays(holds: seq<Exchange> -> bool, before: seq<Exchange>, e: Exchange) {
    holds(before) && (e.Forget? || Speaks(e)) ==> holds(before + [e])
  }

  /** What holds before anything was said, and stays with each exchange, holds always. */
  lemma {:induction false} AtEveryEnd(holds: seq<Exchange> -> bool, events: seq<Exchange>)
    requires holds([]) && AllCount(events)
    requires forall before, e :: Stays(holds, before, e)
    ensures holds(events)
  {
    if events != [] {
      var before, e := events[..|events| - 1], events[|events| - 1];
      AtEveryEnd(holds, before);
      assert Stays(holds, before, e);
      assert events == before + [e];
    }
  }

  lemma NothingYet(cfg: Settings)
    requires Configured(cfg)
    ensures SameOrder(cfg, Played(cfg, Empty(), []), Lru.Run(cfg.maxSessions, Uses([])))
  {
  }

  lemma OrdersAgree(cfg: Settings, events: seq<Exchange>)
    requires Configured(cfg) && AllCount(events)
    ensures SameOrder(cfg, Played(cfg, Empty(), events), Lru.Run(cfg.maxSessions, Uses(events)))
  {
    ghost var holds :=
      (es: seq<Exchange>) => SameOrder(cfg, Played(cfg, Empty(), es), Lru.Run(cfg.maxSessions, Uses(es)));
    NothingYet(cfg);
    forall before, e ensures Stays(holds, before, e) {
      if holds(before) && (e.Forget? || Speaks(e)) {
        StillSameOrder(cfg, before, e);
      }
    }
    AtEveryEnd(holds, events);
  }

  /** The table's history says of `id` what the exchanges say. */
  ghost predicate SameHistory(max: nat, events: seq<Exchange>, id: string) {
    && Lru.UsedSince(max, Uses(events), id) == OthersSince(events, id)
    && Lru.Written(Uses(events), id) == if Spoken(events, id) then Some(Lru.Slot((), None)) else None
  }

  lemma StillSameHistory(max: nat, before: seq<Exchange>, e: Exchange, id: string)
    requires SameHistory(max, before, id)
    ensures SameHistory(max, before + [e], id)
  {
    var events := before + [e];
    var ops := Uses(events);
    assert ops[..|ops| - 1] == Uses(before) && ops[|ops| - 1] == UseOf(e);
    assert events[..|events| - 1] == before && events[|events| - 1] == e;
  }

  lemma SinceAgree(max: nat, events: seq<Exchange>, id: string)
    requires AllCount(events)
    ensures SameHistory(max, events, id)
  {
    ghost var holds := (es: seq<Exchange>) => SameHistory(max, es, id);
    forall before, e ensures Stays(holds, before, e) {
      if holds(before) && (e.Forget? || Speaks(e)) {
        StillSameHistory(max, before, e, id);
      }
    }
    AtEveryEnd(holds, events);
  }

  /** A session is remembered only if something was said in it since it was last
      cleared, and it is while that was in fewer than the limit of other sessions
      since; if no session was cleared, only then. */
  lemma SessionsKept(cfg: Settings, events: seq<Exchange>, id: string)
    requires Configured(cfg) && AllCount(events)
    ensures var kept := id in Played(cfg, Empty(), events).items;
            && (kept ==> Spoken(events, id))
            && (Spoken(events, id) && |OthersSince(events, id)| < cfg.maxSessions ==> kept)
            && (kept && (forall i :: 0 <= i < |events| ==> !events[i].Forget?) ==>
                  |OthersSince(events, id)| < cfg.maxSessions)
  {
    var max, ops := cfg.maxSessions, Uses(events);
    OrdersAgree(cfg, events);
    SinceAgree(max, events, id);
    Lru.AgreesAlways(max, ops, id, 0.0);
    assert id in Played(cfg, Empty(), events).items <==> id in Lru.Run(max, ops).items;
    if Spoken(events, id) && forall i :: 0 <= i < |events| ==> !events[i].Forget? {
      Lru.ExactEviction(max, ops, id, 0.0);
    }
  }
}
