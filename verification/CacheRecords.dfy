/** What the answer cache stores, and what makes a stored answer valid. */
module CacheRecords {
  import opened Wrappers
  import opened Vectors
  import G = AgentGraph

  /** A knowledge-base version: a counter, or whatever something else wrote there. */
  datatype Token = Number(n: int) | Foreign(text: string)

  /** `_as_int` */
  function AsInt(token: Token): int {
    match token
    case Number(n) => n
    case Foreign(_) => 0
  }

  /** The three identities under which a cached answer stays valid. */
  datatype Versions = Versions(knowledgeBase: Token, model: string, prompts: string)

  datatype CachedAnswer = CachedAnswer(
    query: string,
    normalized: string,
    answer: string,
    embedding: Vector,
    citations: seq<G.Citation>,
    tools: seq<G.ToolResult>,
    trace: seq<G.Mark>,
    revisions: nat,
    grounded: bool,
    sufficientContext: bool,
    confidence: real,
    versions: Versions,
    createdAt: real,
    expiresAt: real)
  {
    function AgeSeconds(now: real): real {
      if now - createdAt > 0.0 then now - createdAt else 0.0
    }

    predicate IsLive(now: real) {
      now < expiresAt
    }

    predicate Matches(current: Versions) {
      && versions.knowledgeBase == current.knowledgeBase
      && versions.model == current.model
      && versions.prompts == current.prompts
    }
  }

  /** Keys stay structured: hashing them is assumed to be injective. The index
      namespace of a version triple is the triple itself. */
  datatype Key = AnswerKey(versions: Versions, normalized: string) | CounterKey

  /** A stored payload: the counter, an entry that parses, or text that does not. */
  datatype Payload = Counter(token: Token) | Answer(entry: CachedAnswer) | Unreadable(text: string)

  /** `CachedAnswer.model_validate_json` */
  function Parse(payload: Payload): Option<CachedAnswer> {
    match payload
    case Answer(entry) => Some(entry)
    case _ => None
  }

  /** The version a payload is taken for; no answer is ever written under the counter's key. */
  function TokenOf(payload: Payload): Token {
    match payload
    case Counter(token) => token
    case Answer(entry) => Foreign(entry.answer)
    case Unreadable(text) => Foreign(text)
  }

  datatype Kind = Exact | Semantic

  datatype Hit = Hit(entry: CachedAnswer, kind: Kind, key: Key, age: real, similarity: real)

  /** An answer as it is stored: `metadata` supplies provenance and verdict. */
  function EntryOf(query: string, normalized: string, answer: string, metadata: G.Metadata, versions: Versions,
                   embedding: Vector, now: real, ttl: real): CachedAnswer
  {
    var critique := metadata.critique;
    CachedAnswer(query, normalized, answer, embedding, metadata.citations, metadata.tools, metadata.trace,
                 metadata.revisions,
                 critique.Some? && critique.value.grounded,
                 critique.Some? && critique.value.sufficientContext,
                 if critique.Some? then critique.value.confidence else 0.0,
                 versions, now, now + ttl)
  }
}
