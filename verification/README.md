# Verified model of the agentic RAG service

A question-answering service answers from indexed documents by running an agent
graph, keeps answers in a cache, keeps conversations in memory, and embeds text
through a cache of its own. This project models its stateful and arithmetic core
and proves what that core is for, over every run, every interleaving and every input.

| files | what they model |
|---|---|
| `OrderedDict`, `LruStore` | the ordered dictionary and the LRU/TTL table behind both in-process caches, and what it retains |
| `AsyncTtlCache`, `SingleFlight`, `BurstLoads` | the embedding cache: its lock-guarded sections as a class, `get_or_load` as a protocol cut at every `await` |
| `CacheRecords`, `CacheBackend`, `KnowledgeBase`, `Scanning`, `Gateway`, `Recall` | the answer cache as classes: store, vector index, version counter, exact and semantic lookup; and what a lookup must find |
| `CacheProtocol`, `CacheHistory`, `CachePurges`, `UndisturbedCalls` | lookups, stores and version bumps interleaved; where each hit came from; what self-cleaning may delete; and the proof that one call alone is the gateway's |
| `CachedAgent` | the cache in front of the graph, invoked and streamed |
| `AgentGraph`, `AgentRuns`, `RunRecords` | the graph's nodes, routers and runs for every model, tool and retriever reply; what a run makes of each reply |
| `UserFacts`, `MemoryStore`, `MemoryWriter`, `MemoryCadence`, `Transcripts`, `SessionRetention` | conversation memory: whether the rolling summary keeps up with the window, what a snapshot shows of what was said, which sessions are kept |
| `Text`, `QueryKeys`, `SameQuestion` | query normalisation on ASCII text: what it identifies and what it keeps apart |
| `Vectors`, `Sorting`, `Mmr`, `RankFusion`, `Sentences`, `SentenceContent`, `Compression` | cosine similarity, greedy re-ranking, rank fusion, the compression funnel |

Replies of models, tools, retrievers and the embedding service are arbitrary
inputs. Clock readings are arbitrary too; where a result needs a clock that does
not run backwards, it says so. Numbers are reals and the square root is any
function that gives non-negative roots. Cache keys stay structured where the
source hashes them.

Each class method is proved to compute a function of the old state, and the
theorems are about those functions: retention, semantic lookup, memory cadence
and conversation results therefore hold of the objects.

Where the source and its own words disagree, the model follows the code:

- app/core/cache.py:9-13 promises one load for concurrent misses. The in-flight
  marker goes (line 100) before the value is stored (line 104), so a caller that
  looks in between loads again. `OneLoadPerBurst` says exactly which runs load
  once, and `OneLoadGuaranteedIff` what a caller knows beforehand: only a burst of
  one. One load *in flight*, and at most one load for each caller, always hold.
- app/config/settings.py:128-136 demands `summary_after_turns <= short_term_turns`
  so that no turn is dropped unsummarised. That is too weak: `NothingIsLostIff`
  gives the window each interval needs, and equality never suffices once an
  exchange may have one side only.
- `normalize_query` is not idempotent (`what? !`); `IdempotentIff` says, from the
  question alone, exactly when it is.
- The knowledge-base version protects an answer from the moment its store
  resolves the version (app/cache/gateway.py:258), not from the graph run that
  produced it. `FreshIff` says exactly when an answer served was ready under the
  version it is served under: when no bump completed between its store's start and
  its resolve. `OvertakenIsServed` gives, for every answer the gate admits, a run that
  serves it late.

## Model

| member | source | states |
|---|---|---|
| `LruStore.Retention` | app/cache/memory.py:54-75 | after any history of sets, reads, deletions and clears, a read returns exactly the last value set while it is unexpired; it misses only if nothing is set, it expired, or at least max-size distinct other keys were used since; the table never exceeds its bound |
| `LruStore.ExactEviction` | app/core/cache.py:107-128 | without deletion or expiry, a set key is still there if and only if fewer than max-size distinct other keys were used after it |
| `AsyncTtlCache.AsyncTTLCache.Read` | app/core/cache.py:111-122 | returns the live value, drops an expired one, makes a live one most recent, counts the hit or miss |
| `AsyncTtlCache.AsyncTTLCache.Write` | app/core/cache.py:124-128 | stores with a deadline and evicts from the front, leaving exactly the trimmed table |
| `AsyncTtlCache.AsyncTTLCache.Set` | app/core/cache.py:68-73 | a write, or nothing at all when the cache is disabled |
| `AsyncTtlCache.AsyncTTLCache.LookOrClaim` | app/core/cache.py:86-93 | value, event to wait for, or claim of the load; a claim alone changes the in-flight table |
| `AsyncTtlCache.AsyncTTLCache.PopLoading` | app/core/cache.py:99-100 | removes the in-flight marker and returns its event |
| `AsyncTtlCache.WrittenLives` | app/core/cache.py:111-128 | what is written is read back exactly while less than its time to live has passed |
| `SingleFlight.OneLoadInFlight` | app/core/cache.py:85-102 | in every interleaving a key is marked in flight exactly when one caller is between its claim and its removal, and the mark is that caller's |
| `SingleFlight.NoLostWakeup` | app/core/cache.py:94-102 | whoever waits, waits for another's event that is set, about to be set, or registered by a live owner, even when loads fail |
| `SingleFlight.OwnErrorsOnly` | app/core/cache.py:78-81 | a caller fails only with what its own loader raised; one that never loaded returns |
| `SingleFlight.ReturnsWhatWasLoaded` | app/core/cache.py:75-105 | a value returned for a key was loaded or set for that key |
| `SingleFlight.WaitsBounded` | app/core/cache.py:85-94 | in every run a caller goes round its loop at most once for each other caller |
| `SingleFlight.AtMostOneLoadEach` | app/core/cache.py:75-105 | n callers run at most n loads, whatever fails, expires or is evicted |
| `SingleFlight.CountersAddUp` | app/core/cache.py:111-122 | in every run the hits counted are the reads that found a live value, and hits and misses together are all reads |
| `SingleFlight.Progress` | app/core/cache.py:75-105 | while a caller is unfinished some caller can act: no deadlock |
| `SingleFlight.EveryCallFinishes` | app/core/cache.py:75-105 | no run has more than n(2n+4) caller steps, and when none is left every caller is done |
| `BurstLoads.OneLoadPerBurst` | app/core/cache.py:96-104 | a burst on one key is loaded once if and only if no caller looks between another's removal of the marker and its store |
| `BurstLoads.TwoLoadsInAnyBurst` | app/core/cache.py:96-104 | for every configuration and every two or more callers, a run with no failure or expiry and two loads, cut only where the code suspends |
| `BurstLoads.OneLoadGuaranteedIff` | app/core/cache.py:9-13 | one load is guaranteed if and only if there is at most one caller |
| `CacheBackend.InMemoryCacheBackend.Get` | app/cache/memory.py:54-63 | the live payload, with the store an LRU/TTL read leaves |
| `CacheBackend.InMemoryCacheBackend.Set` | app/cache/memory.py:65-71 | deadline only for a positive TTL, most recent, evicted to the bound |
| `CacheBackend.StoredLives` | app/cache/memory.py:54-71 | a payload is read back exactly while less than its time to live has passed; with none, or a deadline of zero, until it is evicted |
| `CacheBackend.InMemoryCacheBackend.Delete` | app/cache/memory.py:73-75 | the key and nothing else goes |
| `CacheBackend.InMemoryCacheBackend.IndexAdd` | app/cache/memory.py:77-85 | the vector becomes the newest of its namespace, which stays within its own bound |
| `CacheBackend.InMemoryCacheBackend.IndexRemove` | app/cache/memory.py:91-95 | the key leaves that namespace only |
| `CacheBackend.InMemoryCacheBackend.Clear` | app/cache/memory.py:97-100 | both halves are emptied |
| `KnowledgeBase.KnowledgeBaseVersion.ReadCurrent` | app/cache/versions.py:84-90 | the stored version, else the one last seen, which it then is |
| `KnowledgeBase.KnowledgeBaseVersion.Bump` | app/cache/versions.py:92-106 | one more than the current version, stored without expiry and remembered |
| `KnowledgeBase.BumpAdvances` | app/cache/versions.py:92-107 | whatever is lost after a bump, the next read gives the new version: one above the old counter, or one if that was no number |
| `Gateway.ReadEntryEffect` | app/cache/gateway.py:194-233 | reading keeps every other entry, and the entry read is gone exactly when it returns nothing |
| `Gateway.ReadEntryFinds` | app/cache/gateway.py:203-233 | what is returned is stored, live and matching; what is usable now or later is returned |
| `Gateway.RankedScore` | app/cache/gateway.py:357-377 | the ranking lists each vector of the query's width at or above the threshold once, with its cosine, best first |
| `Gateway.ScanEffect` | app/cache/gateway.py:179-192 | trying candidates removes those tried in vain from both halves, and nothing else from either |
| `Gateway.ScanFinds` | app/cache/gateway.py:179-188 | the entry a scan returns was stored under its key from the start, is live and matches |
| `Gateway.HitIsBest` | app/cache/gateway.py:159-192 | a semantic hit carries its own cosine and is at least as similar as every vector whose answer is usable; what ranks above it is unusable and gone from both halves |
| `Gateway.MissLeavesNothing` | app/cache/gateway.py:179-192 | after a semantic miss no vector of the query's width at or above the threshold remains |
| `Gateway.OnlyTheUnusableGoes` | app/cache/gateway.py:189-191 | a lookup alone removes nothing that could have answered it, and touches no other namespace |
| `Gateway.CacheGateway.Resolve` | app/cache/versions.py:131-137 | the live counter paired with the two static versions |
| `Gateway.CacheGateway.Read` | app/cache/gateway.py:194-233 | the four ways to fail, each deleting what it found, and the one way to succeed |
| `Gateway.CacheGateway.RankedCandidates` | app/cache/gateway.py:357-377 | the loop over the index computes the ranking |
| `Gateway.CacheGateway.TryCandidates` | app/cache/gateway.py:179-192 | the loop over the ranking is the scan, vectors dropped included |
| `Gateway.CacheGateway.Lookup` | app/cache/gateway.py:95-157 | exact, then semantic, then nothing: result, store and version seen; an attempted lookup is counted once, a hit under its kind, any other not at all |
| `Gateway.CacheGateway.LookupSemantic` | app/cache/gateway.py:159-192 | skipped when off or the index is empty; a failed embedding is a counted miss |
| `Gateway.CacheGateway.Store` | app/cache/gateway.py:238-281 | nothing is kept when disabled, blank or refused; otherwise entry and vector under the versions resolved then |
| `Gateway.StoredIsFound` | app/cache/gateway.py:95-281 | what a store keeps, the next lookup of any text with the same normal form finds exactly, if and only if it is still live |
| `Recall.SimilarIsFound` | app/cache/gateway.py:95-192 | when the exact read gives nothing, any indexed vector of the query's width at or above the threshold whose answer is usable throughout makes the lookup a semantic hit, at least as similar, found through its own vector |
| `Recall.SemanticHitIsBest` | app/cache/gateway.py:159-192 | a semantic hit is a stored answer under the lookup's versions, reported with the cosine of its own vector, no less than that of any similar vector usable throughout |
| `Recall.SimilarIsRecalled` | app/cache/gateway.py:95-281 | what a store keeps with a vector, a later question in other words with a similar enough embedding recalls within the time to live: that answer, unless its own key or a vector at least as similar holds another |
| `Gateway.FoundAge` | app/cache/gateway.py:145-156 | the age an exact hit reports is the time since the store |
| `Gateway.StoreIsCounted` | app/cache/gateway.py:238-281 | an answer is kept if and only if the cache is on, the question not blank, the gate admits it and the embedding, if needed, succeeds; a store kept is counted once, and nothing else but a failed embedding is |
| `CacheHistory.HitSoundness` | app/cache/gateway.py:95-233 | in every interleaving each hit comes from a store that the run offered and the gate admitted, under the lookup's versions, unexpired; exact hits have the same normalised question; for semantic ones some store of the run, of the same key and versions, computed a vector whose cosine with the embedding this lookup received is the similarity reported, at or above the threshold |
| `CacheHistory.SimilarityIsTheAnswers` | app/cache/gateway.py:174-188 | where stores of one key agree on the vector, that is the vector of the answer served |
| `CachePurges.PurgesOnlyTheUnusable` | app/cache/gateway.py:194-233 | in every interleaving a lookup that deletes a key had read it and found it unusable; the deletion costs a usable answer only if a store wrote the key in between |
| `CachePurges.LiveAnswerIsPurged` | app/cache/gateway.py:203-231 | for every answer the gate admits, a run in which that happens |
| `CacheProtocol.VersionInvalidation` | app/cache/versions.py:92-107 | an answer served was stored with the same bumps completed: never one whose store resolved before a bump the lookup resolved after |
| `CacheProtocol.CounterCountsBumps` | app/cache/versions.py:84-107 | the version read at any moment is the number of completed bumps, through eviction, clearing and unreadable payloads |
| `CacheHistory.FreshIff` | app/cache/gateway.py:257-263 | an answer served was offered under the version the lookup runs under if and only if no bump completed between its store's offer and its resolve |
| `CacheHistory.OvertakenIsServed` | app/cache/gateway.py:257-263 | for every answer the gate admits, a run from the start that serves it after a bump it was offered before |
| `UndisturbedCalls.LookupAlone` | app/cache/gateway.py:95-192 | from any state, some steps of one lookup and of nothing else, every one with the embedding reply that lookup gets, leave the store, version and hit of the gateway's lookup |
| `UndisturbedCalls.StoreAlone` | app/cache/gateway.py:257-276 | likewise for a store, failed embeddings included |
| `CachedAgent.AgenticRagAgent.Stream` | app/agents/rag.py:149-176 | one stage for each node run, in the order of the run's trace; only drafts that say something, the last one the final answer if there is one; then the result of the last state |
| `CachedAgent.CachedRagAgent.IsStandalone` | app/cache/agent.py:137-152 | cache on, and no session, no memory, or no history |
| `CachedAgent.CachedRagAgent.Remember` | app/cache/agent.py:154-168 | a hit appends both turns and neither summarises nor extracts |
| `CachedAgent.CachedRagAgent.Invoke` | app/cache/agent.py:80-91 | the cache, the memory and the response of one call |
| `CachedAgent.CachedRagAgent.StreamEvents` | app/cache/agent.py:93-121 | draining the stream leaves the cache, counters and memory `Invoke` leaves, and exactly one result, last, with its answer and report; before it a live run tells every node it went through, a hit only its answer |
| `CachedAgent.ServedAsStored` | app/cache/agent.py:189-212 | a hit, exact or semantic, reports what was stored: only the plan and the critic's words are blank and the trace ends in the cache's mark; it would be admitted again |
| `CachedAgent.AskedAgain` | app/cache/agent.py:80-91 | a question answered live and admitted is, when next asked on its own in the same normal form, an exact hit with the same answer and report if and only if the entry is still live |
| `CachedAgent.NeverMidConversation` | app/cache/agent.py:137-152 | in every run a question is standalone exactly when its session is not retained; otherwise the cache is untouched; a session goes only when cleared, or when a new one finds the table full |
| `CachedAgent.ConversationRecorded` | app/cache/agent.py:154-168 | after any run of calls, a question with a session, served live or from the cache, is what the session's snapshot ends with: the user's question, then the assistant's turn with the answer given |
| `AgentGraph.FormatContext` | app/agents/context.py:22-38 | one block for each document within the limit, numbered from one; block n and the response's citation n carry the number, name, page, content and score of document n |
| `AgentRuns.EveryRunEnds` | app/agents/graph.py:83-161 | every run ends within 3 + 5(max_revisions + 1) node steps |
| `AgentRuns.BoundIsReached` | app/agents/graph.py:109-161 | some replies need every one of those steps |
| `AgentRuns.RevisionsCounted` | app/agents/nodes/planner.py:48-100 | revisions are planner visits less one, at most the budget; the memory writer runs once, last |
| `AgentRuns.RouterAndCacheAgree` | app/cache/gateway.py:283-305 | for every completed run the cache refuses nothing exactly when the critique is accepted, the answer is not blank and no tool failed |
| `AgentRuns.AcceptedMeansGrounds` | app/agents/nodes/critic.py:42-70 | an accepted answer had a document or a successful tool; insufficient context means the budget was used up |
| `RunRecords.StateFollowsReplies` | app/agents/graph.py:60-105 | at every moment of every run the analysis, plan, tool results, documents, answer and critique are what the latest visit of their node makes of the reply it got: a plan as proposed, the first max_tool_calls calls in order with their outcomes, the documents found, a refusal exactly without grounds |
| `RunRecords.VerdictIsTheCritics` | app/agents/nodes/critic.py:42-88 | a completed run ends on the critic's latest reply unaltered; on insufficient context without grounds; on no confidence when the critic failed |
| `RunRecords.ReportFollowsReplies` | app/agents/rag.py:179-193 | a completed run reports the nodes it went through, the planner's visits after the first, the latest plan, verdict and tool results, and a numbered citation for each document found |
| `RunRecords.AdmittedIff` | app/cache/gateway.py:283-305 | the cache refuses nothing of a completed run exactly when it has grounds, the critic's latest reply says sufficient, grounded and confident enough (or failed where no confidence is asked for), the answer is not blank and every tool call came back |
| `RunRecords.EdgesFollowReplies` | app/agents/graph.py:84-161 | every edge of every run is told from the plan and the verdict of the visit before it |
| `AgentRuns.FailedCriticApproves` | app/agents/nodes/critic.py:62-80 | a completed run whose critic last failed ends accepted if and only if it has context and the confidence floor is not positive |
| `AgentRuns.CriticSeesTheGeneratorsContext` | app/agents/graph.py:97-98 | at every critic step documents and tool results are those the generator had |
| `AgentRuns.DocumentsAreTheLatest` | app/agents/nodes/retriever.py:29-67 | documents are the last retriever visit's output, or none |
| `AgentRuns.PlansAreSearchable` | app/agents/nodes/planner.py:118-124 | a plan for a question that is not blank always has text to search for |
| `UserFacts.MergedWith` | app/memory/models.py:33-45 | the merging loop is the specified merge |
| `UserFacts.MergingComposes` | app/memory/models.py:33-45 | merging two batches in turn, truncated between, is merging them at once |
| `UserFacts.NewestSurvive` | app/memory/models.py:33-45 | a fact is kept, with its latest value, if and only if fewer than the limit of other keys were written after it |
| `MemoryStore.InMemoryStore.FetchOrCreate` | app/memory/store.py:120-130 | creates, evicts the least recently used when full, moves to the end |
| `MemoryStore.InMemoryStore.Append` | app/memory/store.py:53-58 | the turn enters the window, the oldest leaves once it is full, the count grows |
| `MemoryStore.InMemoryStore.SetSummary` | app/memory/store.py:90-95 | the new summary covers everything recorded |
| `MemoryStore.InMemoryStore.MergeUserContext` | app/memory/store.py:97-105 | the facts merge under the limit; no facts change nothing |
| `MemoryStore.TouchedEffect` | app/memory/store.py:120-130 | using a session never evicts it and disturbs no session it keeps |
| `SessionRetention.SessionsKept` | app/memory/store.py:120-130 | after any run of exchanges and clearings a session is remembered only if something was said in it since it was last cleared, and always while that was in fewer than max_sessions other sessions since; with no clearing, only then |
| `MemoryWriter.AppendExchange` | app/agents/nodes/memory_writer.py:65-70 | each side of the exchange with content becomes a turn, in order |
| `MemoryWriter.WriteMemory` | app/agents/nodes/memory_writer.py:42-116 | append, then summarise if due, then extract, with every failed reply |
| `MemoryCadence.NothingIsLostIff` | app/config/settings.py:128-136 | no turn leaves the window unsummarised in any run of graph runs and cache hits if and only if the window has the stated size |
| `MemoryCadence.WindowSuffices` | app/agents/nodes/memory_writer.py:65-95 | with that window nothing is lost at any moment of any run, turn by turn |
| `MemoryCadence.Climb` | app/agents/nodes/memory_writer.py:72-95 | with a smaller one, a run that loses a turn, for every interval above three |
| `MemoryCadence.HitThenAsk` | app/cache/agent.py:154-168 | with fewer than four turns a cache hit followed by one exchange loses a turn |
| `Transcripts.SnapshotShows` | app/memory/store.py:73-88 | in every run, whatever fails or is evicted, a snapshot counts every turn said in its session since it was created and shows the newest, as many as the window holds |
| `Transcripts.SnapshotMissesNothing` | app/memory/models.py:1-10 | with the window `NothingIsLostIff` asks for, every turn older than the recent ones is covered by the summary |
| `Transcripts.LastExchange` | app/agents/nodes/memory_writer.py:65-70 | after any run, one exchange more ends the snapshot with the question as the user's turn and the answer as the assistant's; an empty side leaves no turn |
| `Transcripts.MemoryFollowsReplies` | app/agents/nodes/memory_writer.py:72-116 | each exchange leaves the session, and its snapshot, the stripped summary the model wrote, if one was due, covering all recorded by then, and its facts merged into the old; otherwise both stay |
| `QueryKeys.NormalForm` | app/cache/keys.py:51-63 | no upper case, no edge or doubled spaces, no repeated punctuation |
| `QueryKeys.CaseDoesNotMatter` | app/cache/keys.py:60 | questions whose characters are pairwise equal, or a capital and the same letter 32 code points up, normalise alike |
| `QueryKeys.RunLengthDoesNotMatter` | app/cache/keys.py:61 | so do questions that differ in the length of a white-space run |
| `QueryKeys.ClosingMarksDoNotMatter` | app/cache/keys.py:62-63 | appending any run of sentence punctuation to text not ending in white space changes nothing |
| `SameQuestion.KeysSeparate` | app/cache/keys.py:51-63 | questions that normalise alike have, white space and marks left out, the same sequence of characters up to case |
| `QueryKeys.NormalAgain` | app/cache/keys.py:51-63 | text already in normal form is its own key unless it ends in a mark |
| `QueryKeys.IdempotentIff` | app/cache/keys.py:51-63 | a second pass gives a prefix, and the same text if and only if the question, without its closing space, then marks, then space, does not end in a mark |
| `QueryKeys.NotIdempotent` | app/cache/keys.py:62-63 | a space hides a mark from the first pass |
| `Vectors.CauchySchwarz` | app/retrieval/similarity.py:20-21 | the square of a dot product is at most the product of the squared lengths |
| `Vectors.DotAdds` | app/retrieval/similarity.py:20 | the dot product adds up over a sum of vectors |
| `Vectors.DotUnit` | app/retrieval/similarity.py:20 | with a unit vector it is that coordinate |
| `Vectors.CosineIsBounded` | app/retrieval/similarity.py:16-22 | cosine similarity lies in [-1, 1] |
| `Vectors.CosineIsSymmetric` | app/retrieval/similarity.py:16-22 | and is symmetric, mismatched widths included |
| `Vectors.CosineIgnoresLength` | app/retrieval/similarity.py:16-22 | and is unchanged by positive scaling of either side |
| `Vectors.CosineOfItself` | app/retrieval/similarity.py:22 | a vector scores 1 with itself, a zero vector 0 with everything |
| `Vectors.CosineOfOpposite` | app/retrieval/similarity.py:16-22 | opposite vectors have opposite cosines |
| `Sorting.SortingIsStable` | app/cache/gateway.py:376 | descending order, the same entries, ties in the given order |
| `Sorting.SortingIsDetermined` | app/retrieval/hybrid.py:121 | those three determine the list |
| `Mmr.MaximalMarginalRelevance` | app/retrieval/similarity.py:34-68 | min(k, n) distinct positions in range; fails exactly on a candidate of another width; each position chosen is preferred to every one left: by cosine to the query at first, then by weighted relevance less weighted largest cosine to those chosen, the earlier of two alike |
| `Mmr.NextBest` | app/retrieval/similarity.py:54-62 | one round finds what is preferred, in those terms, to everything else that remains |
| `Mmr.FewerIsAPrefix` | app/retrieval/similarity.py:54-68 | the selection for fewer is a prefix of the selection for more |
| `Mmr.PlainRanking` | app/retrieval/similarity.py:43-46 | with all weight on relevance it is a top-k set in descending relevance |
| `Mmr.ChosenForDiversity` | app/retrieval/similarity.py:52-60 | with weight in [0, 1) a candidate chosen over one at least as relevant has no larger cosine to the selection than the other's largest; with weight 0 this holds whatever the relevance |
| `Mmr.Rerank` | app/retrieval/vector.py:86-111 | distinct candidates that carry vectors, each preferred to those left; without any vector the first top-k |
| `RankFusion.ReciprocalRankFusion` | app/retrieval/similarity.py:71-91 | the two loops compute the fused dictionary; fails exactly on weights of another length |
| `RankFusion.FusionScores` | app/retrieval/similarity.py:87-91 | exactly the ids that appear have a score, the sum of their shares |
| `RankFusion.AheadScoresHigher` | app/retrieval/similarity.py:79-90 | an id ahead of another wherever the other is ranked scores strictly higher |
| `RankFusion.FusionIgnoresOrder` | app/retrieval/similarity.py:88-90 | the scores do not depend on the order of the rankings |
| `RankFusion.ScoreIsConserved` | app/retrieval/similarity.py:88-90 | all scores together are worth what all positions are |
| `RankFusion.HybridScore` | app/retrieval/hybrid.py:116-120 | a document's score is dense_weight/(k + rank) from the dense ranking plus (1 - dense_weight)/(k + rank) from the sparse one, ranks from one, nothing where it is absent |
| `RankFusion.Fuse` | app/retrieval/hybrid.py:107-126 | the documents of the best ids, each found among the documents given |
| `RankFusion.FusedDocuments` | app/retrieval/hybrid.py:121-126 | distinct documents in descending score; whatever outscores a returned one is returned ahead of it |
| `RankFusion.DenseCopyWins` | app/retrieval/hybrid.py:113-115 | where both retrievers return a document, the dense copy is returned |
| `Sentences.SentencesFit` | app/retrieval/compressors.py:184-187 | the sentences of a text and a separator each take no more room than the text |
| `SentenceContent.SentencesAreTheParts` | app/retrieval/compressors.py:184-187 | a text is its parts and the gaps between; the gaps are exactly the runs of white space after a stop and the blank lines; the sentences are the stripped parts of two characters or more, all of them, in order |
| `SentenceContent.KeepsWhatQualifies` | app/retrieval/compressors.py:141-145 | the sentences kept are exactly those whose score qualifies, in order |
| `SentenceContent.JoinsWithASpace` | app/retrieval/compressors.py:149 | joining puts one space between neighbours |
| `Compression.Strong` | app/retrieval/compressors.py:58-61 | only documents at or above the relevance, every such one, in the given order |
| `Compression.StrongIsFiltered` | app/retrieval/compressors.py:58-61 | and as often as each comes |
| `Compression.DropRepeats` | app/retrieval/compressors.py:78-96 | kept documents are pairwise below the threshold, each dropped one is at or above it against an earlier kept one |
| `Compression.TrimSentences` | app/retrieval/compressors.py:114-134 | each document is rebuilt from its own window of scores; nothing is lost or reordered; without an embedding of the query nothing changes |
| `Compression.WindowsLineUp` | app/retrieval/compressors.py:128-133 | the cursor's windows are exactly the groups of the flattened batch |
| `Compression.WindowScores` | app/retrieval/compressors.py:125-132 | score j of window i is the cosine of sentence j of document i |
| `Compression.ChosenAreItsOwn` | app/retrieval/compressors.py:136-149 | a rebuilt document is a non-empty subsequence of its own sentences: exactly those that qualify, or, if none does, the best |
| `Compression.RebuildingTrims` | app/retrieval/compressors.py:136-149 | rebuilding never lengthens a document |
| `Compression.Fit` | app/retrieval/compressors.py:165-181 | whole documents while they fit; a first one that is too long is cut, and only the empty documents right after it stay; at most the budget |
| `Compression.FunnelShrinks` | app/retrieval/compressors.py:1-11 | what a funnel returns is never more documents nor more characters |
| `Compression.FunnelKeepsOrder` | app/retrieval/compressors.py:1-11 | the ids that come out are a subsequence of the ids that went in |
| `Compression.RunPipeline` | app/retrieval/compression.py:107-123 | every stage does its own work on exactly what the one before kept; an empty set, and nothing else, ends the run early; the trace holds each stage's sizes |
| `Compression.CompressedSearch` | app/retrieval/compression.py:66-105 | the first top-k documents of the standard stages (relevance floor, repeats, sentences if on, budget; each with its own setting): at most the budget, never longer, ids a subsequence, every score at or above the floor |

## Left out

- CacheHistory.HitSoundness: the age a hit reports is read at the same moment as its expiry check, where the source reads the clock once more.
- CacheProtocol.VersionInvalidation: speaks of when a store resolved its versions; which corpus the graph run read is not part of this model.
- CachedAgent.CachedRagAgent.StreamEvents: the events are returned drained, so a consumer that stops early is not modelled; the rounding of age and similarity in the report is not either.
- MemoryCadence.NothingIsLostIff: calls run one at a time and every summary call succeeds; a failed one leaves the backlog as it is. What a summary says is not modelled.
- SessionRetention.SessionsKept: every exchange says something or clears a session; one with neither question nor answer is not covered.
- Compression.DropRepeats: all vectors of one embedding call are taken to have one width, as one model gives them.
- CachedAgent.AskedAgain: speaks of one question and the next; with other calls between, what a hit owes is `CacheHistory.HitSoundness`.
- AgentRuns.EveryRunEnds: the graph library's own recursion limit is not part of this model.
- Compression.CompressedSearch: the wider request to the base retriever and a query's opting out of compression are not modelled.
- Mmr.NextBest: what remains is visited in ascending order, which Python's set of small integers does.
- Cancellation inside `get_or_load`, which rests on the concurrency library's cancel scopes, and a loader that returns nothing.
- The Redis backend and its managed wrapper: a foreign client with expiry on the server. Exceptions of a backend are modelled only where the embedding call raises.
- Unicode compatibility normalisation, case folding and typographic punctuation in queries: text is ASCII. SHA-256 is taken to be injective, JSON to be lossless for entries that parse.
- Floating-point rounding, NaN and infinities.
- `_Session` objects are values of the store's map here, so aliasing of a session between calls is not captured; each store method is one locked section.
- Wording: prompts, refusal and tool-error texts beyond the two fixed answers, the joining of context blocks into one string, search type, filters and top-k of a plan, the trace's detail after the node's name.
- Routes, middleware, uploads, parsing of documents, logging, tracing, cost recording, retries, the calculator and metadata filters: plumbing, or true but easy.
