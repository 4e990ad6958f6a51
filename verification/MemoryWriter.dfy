/** The two writers of conversation memory: the graph's last node, and a cache hit standing in for it. */
module MemoryWriter {
  import opened Wrappers
  import opened Text
  import opened UserFacts
  import opened MemoryStore

  /** What the model answered while memory was written; `None` is a `DependencyError`. */
  datatype Reply = Reply(summary: Option<string>, facts: Option<seq<Fact>>)

  /** Each side of the exchange that has any content is one turn. */
  function Turns(id: string, query: string, answer: string): seq<Record> {
    (if query != "" then [Record(id, User, query)] else []) +
    (if answer != "" then [Record(id, Assistant, answer)] else [])
  }

  function AppendedAll(cfg: Settings, d: Sessions, records: seq<Record>): Sessions {
    if records == [] then d
    else Appended(cfg, AppendedAll(cfg, d, records[..|records| - 1]), records[|records| - 1])
  }

  function MaybeSummarised(cfg: Settings, d: Sessions, id: string, reply: Reply): Sessions {
    if PendingOf(d, id) >= cfg.summaryAfter && reply.summary.Some?
    then Summarised(cfg, d, id, Strip(reply.summary.value)) else d
  }

  function MaybeExtracted(cfg: Settings, extract: bool, d: Sessions, id: string, query: string, reply: Reply): Sessions
  {
    if extract && query != "" && reply.facts.Some? then FactsMerged(cfg, d, id, reply.facts.value) else d
  }

  /** The store after the memory writer has run on one exchange. */
  function Written(cfg: Settings, extract: bool, d: Sessions, id: string, query: string, answer: string,
                   reply: Reply): Sessions
  {
    var appended := AppendedAll(cfg, d, Turns(id, query, answer));
    MaybeExtracted(cfg, extract, MaybeSummarised(cfg, appended, id, reply), id, query, reply)
  }

  lemma AppendedOne(cfg: Settings, d: Sessions, records: seq<Record>, last: Record)
    ensures AppendedAll(cfg, d, records + [last]) == Appended(cfg, AppendedAll(cfg, d, records), last)
  {
    assert (records + [last])[..|records|] == records;
  }

  method AppendExchange(store: InMemoryStore, id: string, query: string, answer: string)
    requires store.Wf()
    modifies store
    ensures store.Wf() && store.sessions == AppendedAll(store.cfg, old(store.sessions), Turns(id, query, answer))
  {
    ghost var d := store.sessions;
    var sides := [(User, query), (Assistant, answer)];
    ghost var done: seq<Record> := [];
    for i := 0 to 2
      invariant store.Wf()
      invariant done == (if i > 0 && query != "" then [Record(id, User, query)] else [])
                      + (if i > 1 && answer != "" then [Record(id, Assistant, answer)] else [])
      invariant store.sessions == AppendedAll(store.cfg, d, done)
    {
      var (role, content) := sides[i];
      if content != "" {
        store.Append(Record(id, role, content));
        AppendedOne(store.cfg, d, done, Record(id, role, content));
        done := done + [Record(id, role, content)];
      }
    }
  }

  /** `MemoryWriterNode.__call__` with memory enabled and a session to write to. */
  method WriteMemory(store: InMemoryStore, extract: bool, id: string, query: string, answer: string, reply: Reply)
    requires store.Wf()
    modifies store
    ensures store.Wf() && store.sessions == Written(store.cfg, extract, old(store.sessions), id, query, answer, reply)
  {
    AppendExchange(store, id, query, answer);
    var pending := store.TurnsSinceSummary(id);
    if pending >= store.cfg.summaryAfter {
      if reply.summary.Some? {
        store.SetSummary(id, Strip(reply.summary.value));
      }
    }
    if extract && query != "" {
      if reply.facts.Some? {
        store.MergeUserContext(id, reply.facts.value);
      }
    }
  }
}
