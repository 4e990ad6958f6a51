/** In-process conversation memory: a window of turns, a rolling summary, and user facts per session. */
module MemoryStore {
  import opened OrderedDict
  import opened UserFacts

  datatype Role = User | Assistant

  datatype Record = Record(sessionId: string, role: Role, content: string)

  /** Everything retained for one conversation. */
  datatype Session = Session(turns: seq<Record>, summary: string, facts: seq<Fact>, recorded: nat, summarised: nat)

  datatype Settings = Settings(window: nat, summaryAfter: nat, maxUserFacts: nat, maxSessions: nat)

  datatype Snapshot = Snapshot(summary: string, recent: seq<Record>, facts: seq<Fact>, recorded: nat)

  type Sessions = Dict<string, Session>

  const FRESH := Session([], "", [], 0, 0)

  /** `items[-n:]`, where zero means all of them. */
  function Newest<T>(s: seq<T>, n: nat): seq<T> {
    if n == 0 then s else Last(s, n)
  }

  /** `_session`: fetch or create, evict the least recently used if full, and move to the end. */
  function Touched(cfg: Settings, d: Sessions, id: string): Sessions {
    if id in d.items then PutLast(d, id, d.items[id])
    else
      var grown := PutLast(d, id, FRESH);
      if Size(grown) > cfg.maxSessions then PopFirst(grown) else grown
  }

  function Updated(d: Sessions, id: string, s: Session): Sessions {
    Dict(d.order, d.items[id := s])
  }

  /** The session `_session` returns. */
  function SessionOf(d: Sessions, id: string): Session {
    if id in d.items then d.items[id] else FRESH
  }

  /** A deque with `maxlen`: the oldest turn drops out once it is full. */
  function WithTurn(cfg: Settings, s: Session, record: Record): Session {
    s.(turns := Last(s.turns + [record], cfg.window), recorded := s.recorded + 1)
  }

  function Appended(cfg: Settings, d: Sessions, record: Record): Sessions {
    Updated(Touched(cfg, d, record.sessionId), record.sessionId, WithTurn(cfg, SessionOf(d, record.sessionId), record))
  }

  function Summarised(cfg: Settings, d: Sessions, id: string, summary: string): Sessions {
    var s := SessionOf(d, id);
    Updated(Touched(cfg, d, id), id, s.(summary := summary, summarised := s.recorded))
  }

  function FactsMerged(cfg: Settings, d: Sessions, id: string, facts: seq<Fact>): Sessions {
    if facts == [] then d
    else
      var s := SessionOf(d, id);
      Updated(Touched(cfg, d, id), id, s.(facts := Merged(s.facts, facts, cfg.maxUserFacts)))
  }

  function HistoryOf(d: Sessions, id: string, limit: nat): seq<Record> {
    if id in d.items then Newest(d.items[id].turns, limit) else []
  }

  function PendingOf(d: Sessions, id: string): int {
    if id in d.items then d.items[id].recorded - d.items[id].summarised else 0
  }

  function SnapshotOf(cfg: Settings, d: Sessions, id: string): Snapshot {
    if id !in d.items then Snapshot("", [], [], 0)
    else
      var s := d.items[id];
      Snapshot(s.summary, Newest(s.turns, cfg.window), s.facts, s.recorded)
  }

  /** `InMemoryStore`; the settings forbid zero sizes. */
  class InMemoryStore {
    const cfg: Settings
    var sessions: Sessions

    constructor (cfg: Settings)
      ensures this.cfg == cfg && sessions == Empty()
    {
      this.cfg := cfg;
      sessions := Empty();
    }

    ghost predicate Wf()
      reads this
    {
      cfg.window > 0 && cfg.summaryAfter > 0 && cfg.maxSessions > 0 && Valid(sessions)
        && Size(sessions) <= cfg.maxSessions
    }

    method FetchOrCreate(id: string) returns (session: Session)
      requires Wf()
      modifies this
      ensures Wf()
      ensures sessions == Touched(cfg, old(sessions), id) && id in sessions.items
      ensures session == SessionOf(old(sessions), id) == sessions.items[id]
    {
      TouchedEffect(cfg, sessions, id);
      if id !in sessions.items {
        sessions := Dict(sessions.order + [id], sessions.items[id := FRESH]);
        if |sessions.order| > cfg.maxSessions {
          sessions := PopFirst(sessions);
        }
        TouchedTwice(cfg, old(sessions), id);
      }
      session := sessions.items[id];
      sessions := PutLast(sessions, id, session);
    }

    method Append(record: Record)
      requires Wf()
      modifies this
      ensures Wf() && sessions == Appended(cfg, old(sessions), record)
    {
      TouchedEffect(cfg, sessions, record.sessionId);
      var session := FetchOrCreate(record.sessionId);
      var turns := session.turns + [record];
      if |turns| > cfg.window {
        turns := turns[|turns| - cfg.window..];
      }
      var updated := session.(turns := turns, recorded := session.recorded + 1);
      assert updated == WithTurn(cfg, session, record);
      UpdatedValid(sessions, record.sessionId, updated);
      sessions := Updated(sessions, record.sessionId, updated);
    }

    method History(id: string, limit: nat) returns (turns: seq<Record>)
      ensures turns == HistoryOf(sessions, id, limit)
    {
      turns := if id in sessions.items then Newest(sessions.items[id].turns, limit) else [];
    }

    method Clear(id: string)
      requires Wf()
      modifies this
      ensures Wf() && sessions == Without(old(sessions), id)
    {
      WithoutValid(sessions, id);
      sessions := Without(sessions, id);
    }

    method TakeSnapshot(id: string) returns (snapshot: Snapshot)
      ensures snapshot == SnapshotOf(cfg, sessions, id)
    {
      if id !in sessions.items {
        return Snapshot("", [], [], 0);
      }
      var s := sessions.items[id];
      return Snapshot(s.summary, Newest(s.turns, cfg.window), s.facts, s.recorded);
    }

    method SetSummary(id: string, summary: string)
      requires Wf()
      modifies this
      ensures Wf() && sessions == Summarised(cfg, old(sessions), id, summary)
    {
      TouchedEffect(cfg, sessions, id);
      var session := FetchOrCreate(id);
      sessions := Updated(sessions, id, session.(summary := summary, summarised := session.recorded));
    }

    method MergeUserContext(id: string, facts: seq<Fact>)
      requires Wf()
      modifies this
      ensures Wf() && sessions == FactsMerged(cfg, old(sessions), id, facts)
    {
      if facts == [] {
        return;
      }
      TouchedEffect(cfg, sessions, id);
      var session := FetchOrCreate(id);
      var merged := MergedWith(session.facts, facts, cfg.maxUserFacts);
      sessions := Updated(sessions, id, session.(facts := merged));
    }

    method TurnsSinceSummary(id: string) returns (pending: int)
      ensures pending == PendingOf(sessions, id)
    {
      pending := if id in sessions.items then sessions.items[id].recorded - sessions.items[id].summarised else 0;
    }
  }

  lemma UpdatedValid(d: Sessions, id: string, s: Session)
    requires Valid(d) && id in d.items
    ensures Valid(Updated(d, id, s))
  {
  }

  /** Using a session never evicts it, and disturbs no session it keeps. */
  lemma TouchedEffect(cfg: Settings, d: Sessions, id: string)
    requires Valid(d) && cfg.maxSessions > 0 && Size(d) <= cfg.maxSessions
    ensures var t := Touched(cfg, d, id);
            && Valid(t) && Size(t) <= cfg.maxSessions
            && id in t.items && t.items[id] == SessionOf(d, id)
            && (forall x :: x in t.items && x != id ==> x in d.items && t.items[x] == d.items[x])
            && (id in d.items ==> t.items.Keys == d.items.Keys)
  {
    PutLastValid(d, id, SessionOf(d, id));
    var grown := PutLast(d, id, SessionOf(d, id));
    if id !in d.items && Size(grown) > cfg.maxSessions {
      DropEffect(d.order, id);
      PopFirstValid(grown);
    }
  }

  lemma TouchedTwice(cfg: Settings, d: Sessions, id: string)
    requires Valid(d) && cfg.maxSessions > 0 && Size(d) <= cfg.maxSessions && id !in d.items
    ensures d.order + [id] == PutLast(d, id, FRESH).order
    ensures var t := Touched(cfg, d, id); PutLast(t, id, FRESH) == t
  {
    var grown, t := PutLast(d, id, FRESH), Touched(cfg, d, id);
    TouchedEffect(cfg, d, id);
    PutLastNew(d, id, FRESH);
    assert grown.order[|grown.order| - 1] == id;
    assert t.order[|t.order| - 1] == id;
    PutLastAgain(t, id, FRESH);
  }
}
