/** The compression funnel: drop weak hits, then repeats, then idle sentences, then what exceeds the budget.

    `embed` stands for the embedding service: one vector for each text, all of one width.
 */
module Compression {
  import opened Vectors
  import opened SentenceContent
  import opened Sentences
  import opened AgentGraph

  // ----------------------------------------------------------- the funnel

  function Content(s: ScoredDocument): string {
    s.document.content
  }

  /** `_replace_content`: the same hit with rewritten content. */
  function WithContent(s: ScoredDocument, content: string): ScoredDocument {
    ScoredDocument(Document(s.document.id, content, s.document.metadata), s.score)
  }

  /** `after` is `before` with at most its content rewritten, and not longer: id,
      metadata and score are provenance. */
  ghost predicate Trims(before: ScoredDocument, after: ScoredDocument) {
    && after.document.id == before.document.id && after.document.metadata == before.document.metadata
    && after.score == before.score
    && |Content(after)| <= |Content(before)|
  }

  /** `after` is `before` with documents left out and the rest trimmed, in order. */
  ghost predicate Funnels(before: seq<ScoredDocument>, after: seq<ScoredDocument>)
    decreases |before|
  {
    if before == [] then after == []
    else
      var n, m := |before| - 1, |after| - 1;
      Funnels(before[..n], after) || (after != [] && Trims(before[n], after[m]) && Funnels(before[..n], after[..m]))
  }

  function Characters(documents: seq<ScoredDocument>): nat {
    if documents == [] then 0 else Characters(documents[..|documents| - 1]) + |Content(documents[|documents| - 1])|
  }

  lemma FunnelDrops(before: seq<ScoredDocument>, after: seq<ScoredDocument>, x: ScoredDocument)
    requires Funnels(before, after)
    ensures Funnels(before + [x], after)
  {
    assert (before + [x])[..|before|] == before;
  }

  lemma FunnelKeeps(before: seq<ScoredDocument>, after: seq<ScoredDocument>, x: ScoredDocument, y: ScoredDocument)
    requires Funnels(before, after) && Trims(x, y)
    ensures Funnels(before + [x], after + [y])
  {
    assert (before + [x])[..|before|] == before && (after + [y])[..|after|] == after;
  }

  lemma {:induction false} FunnelsSame(documents: seq<ScoredDocument>)
    ensures Funnels(documents, documents)
  {
    if documents != [] {
      FunnelsSame(documents[..|documents| - 1]);
    }
  }

  lemma {:induction false} FunnelsThenFunnels(a: seq<ScoredDocument>, b: seq<ScoredDocument>, c: seq<ScoredDocument>)
    requires Funnels(a, b) && Funnels(b, c)
    ensures Funnels(a, c)
    decreases |a|, |b|
  {
    if a != [] {
      var n := |a| - 1;
      if Funnels(a[..n], b) {
        FunnelsThenFunnels(a[..n], b, c);
      } else {
        var m := |b| - 1;
        if Funnels(b[..m], c) {
          FunnelsThenFunnels(a[..n], b[..m], c);
        } else {
          FunnelsThenFunnels(a[..n], b[..m], c[..|c| - 1]);
        }
      }
    }
  }

  /** A funnel never grows: not in documents, not in characters. */
  lemma {:induction false} FunnelShrinks(before: seq<ScoredDocument>, after: seq<ScoredDocument>)
    requires Funnels(before, after)
    ensures |after| <= |before| && Characters(after) <= Characters(before)
    decreases |before|
  {
    if before != [] {
      var n := |before| - 1;
      if Funnels(before[..n], after) {
        FunnelShrinks(before[..n], after);
      } else {
        FunnelShrinks(before[..n], after[..|after| - 1]);
      }
    }
  }

  function IdsOf(documents: seq<ScoredDocument>): seq<string> {
    seq(|documents|, i requires 0 <= i < |documents| => documents[i].document.id)
  }

  /** The ids that come out are a subsequence of the ids that went in. */
  lemma {:induction false} FunnelKeepsOrder(before: seq<ScoredDocument>, after: seq<ScoredDocument>)
    requires Funnels(before, after)
    ensures Subsequence(IdsOf(after), IdsOf(before))
    decreases |before|
  {
    if before != [] {
      var n, m := |before| - 1, |after| - 1;
      assert IdsOf(before)[..n] == IdsOf(before[..n]);
      if Funnels(before[..n], after) {
        FunnelKeepsOrder(before[..n], after);
      } else {
        assert IdsOf(after)[..m] == IdsOf(after[..m]);
        FunnelKeepsOrder(before[..n], after[..m]);
      }
    }
  }

  /** A floor on the scores survives a funnel. */
  lemma {:induction false} FunnelKeepsScores(before: seq<ScoredDocument>, after: seq<ScoredDocument>, least: real)
    requires Funnels(before, after) && forall i :: 0 <= i < |before| ==> before[i].score >= least
    ensures forall i :: 0 <= i < |after| ==> after[i].score >= least
    decreases |before|
  {
    if before != [] {
      var n, m := |before| - 1, |after| - 1;
      if Funnels(before[..n], after) {
        FunnelKeepsScores(before[..n], after, least);
      } else {
        FunnelKeepsScores(before[..n], after[..m], least);
        assert forall i :: 0 <= i < m ==> after[..m][i] == after[i];
      }
    }
  }

  lemma {:induction false} CutFunnels(documents: seq<ScoredDocument>, n: nat)
    requires n <= |documents|
    ensures Funnels(documents, documents[..n])
    decreases |documents|
  {
    if n == |documents| {
      FunnelsSame(documents);
      assert documents[..n] == documents;
    } else {
      CutFunnels(documents[..|documents| - 1], n);
      assert documents[..|documents| - 1][..n] == documents[..n];
    }
  }

  // -------------------------------------------------------------- threshold

  /** `ScoreThresholdCompressor.compress` */
  function Strong(documents: seq<ScoredDocument>, least: real): (r: seq<ScoredDocument>)
    ensures forall s :: s in r <==> s in documents && s.score >= least
    ensures Funnels(documents, r)
  {
    if documents == [] then []
    else
      var n := |documents| - 1;
      var before, last := Strong(documents[..n], least), documents[n];
      assert documents == documents[..n] + [last];
      FunnelDrops(documents[..n], before, last);
      FunnelKeeps(documents[..n], before, last, last);
      if last.score >= least then before + [last] else before
  }

  function ReachesFloor(documents: seq<ScoredDocument>, least: real): seq<bool> {
    seq(|documents|, i requires 0 <= i < |documents| => documents[i].score >= least)
  }

  /** Every document at or above the bound, as often as it comes, and in order. */
  lemma {:induction false} StrongIsFiltered(documents: seq<ScoredDocument>, least: real)
    ensures Strong(documents, least) == Filtered(documents, ReachesFloor(documents, least))
  {
    if documents != [] {
      var n := |documents| - 1;
      var before, last := documents[..n], documents[n];
      StrongIsFiltered(before, least);
      FilteredAtEnd(before, ReachesFloor(before, least), last, last.score >= least);
      assert before + [last] == documents;
      assert ReachesFloor(before, least) + [last.score >= least] == ReachesFloor(documents, least);
    }
  }

  // ------------------------------------------------------------- redundancy

  /** The embedding service gives one vector of this width for each text. */
  ghost predicate Embeds(embed: seq<string> -> seq<Vector>, width: nat) {
    forall texts :: |embed(texts)| == |texts| && OneWidth(embed(texts), width)
  }

  /** Whatever the service's width, the query's embedding has it too, or there is none. */
  ghost predicate Serves(embed: seq<string> -> seq<Vector>, query: Vector) {
    exists width :: Embeds(embed, width) && (query != [] ==> |query| == width)
  }

  ghost predicate OneWidth(vectors: seq<Vector>, width: nat) {
    forall i :: 0 <= i < |vectors| ==> |vectors[i]| == width
  }

  function Contents(documents: seq<ScoredDocument>): seq<string> {
    seq(|documents|, i requires 0 <= i < |documents| => Content(documents[i]))
  }

  /** Which pairs of vectors are at least `threshold` alike. */
  function Near(sqrt: real -> real, threshold: real, vectors: seq<Vector>): (nat, nat) -> bool {
    (i: nat, j: nat) =>
      && i < |vectors| && j < |vectors| && |vectors[i]| == |vectors[j]|
      && Cosine(sqrt, vectors[i], vectors[j]) >= threshold
  }

  /** Which of the first `n` survive: every one kept is unlike those kept before
      it, and every one dropped is like one kept before it. */
  ghost predicate Deduplicates(near: (nat, nat) -> bool, n: nat, kept: seq<nat>) {
    && (forall j :: 0 <= j < |kept| ==> kept[j] < n)
    && (forall i, j :: 0 <= i < j < |kept| ==> kept[i] < kept[j])
    && (forall i, j :: 0 <= i < j < |kept| ==> !near(kept[j], kept[i]))
    && (forall i :: 0 <= i < n && i !in kept ==> exists j :: 0 <= j < |kept| && kept[j] < i && near(i, kept[j]))
  }

  ghost predicate Selects(documents: seq<ScoredDocument>, kept: seq<nat>, r: seq<ScoredDocument>) {
    |r| == |kept| && forall j :: 0 <= j < |kept| ==> kept[j] < |documents| && r[j] == documents[kept[j]]
  }

  ghost predicate NearOne(near: (nat, nat) -> bool, i: nat, kept: seq<nat>) {
    exists j :: 0 <= j < |kept| && near(i, kept[j])
  }

  lemma DropStep(near: (nat, nat) -> bool, i: nat, kept: seq<nat>)
    requires Deduplicates(near, i, kept) && NearOne(near, i, kept)
    ensures Deduplicates(near, i + 1, kept)
  {
  }

  lemma KeepStep(near: (nat, nat) -> bool, i: nat, kept: seq<nat>)
    requires Deduplicates(near, i, kept) && !NearOne(near, i, kept)
    ensures Deduplicates(near, i + 1, kept + [i])
  {
    var grown := kept + [i];
    forall p | 0 <= p < i + 1 && p !in grown ensures exists j :: 0 <= j < |grown| && grown[j] < p && near(p, grown[j]) {
      assert grown[|kept|] == i && (forall j :: 0 <= j < |kept| ==> grown[j] == kept[j]) && p !in kept;
      var j :| 0 <= j < |kept| && kept[j] < p && near(p, kept[j]);
      assert grown[j] == kept[j];
    }
  }

  /** `vector` is at least `threshold` like one of `others`. */
  predicate Repeats(sqrt: real -> real, threshold: real, vector: Vector, others: seq<Vector>) {
    exists j :: 0 <= j < |others| && |others[j]| == |vector| && Cosine(sqrt, vector, others[j]) >= threshold
  }

  ghost predicate VectorsAt(vectors: seq<Vector>, kept: seq<nat>, keptVectors: seq<Vector>) {
    |keptVectors| == |kept| && forall j :: 0 <= j < |kept| ==> kept[j] < |vectors| && keptVectors[j] == vectors[kept[j]]
  }

  lemma RepeatsAt(sqrt: real -> real, threshold: real, vectors: seq<Vector>, i: nat, kept: seq<nat>,
                  keptVectors: seq<Vector>)
    requires i < |vectors| && VectorsAt(vectors, kept, keptVectors)
    ensures Repeats(sqrt, threshold, vectors[i], keptVectors) <==> NearOne(Near(sqrt, threshold, vectors), i, kept)
  {
    var near := Near(sqrt, threshold, vectors);
    forall j | 0 <= j < |kept|
      ensures near(i, kept[j]) <==>
                |keptVectors[j]| == |vectors[i]| && Cosine(sqrt, vectors[i], keptVectors[j]) >= threshold
    {
    }
  }

  /** `RedundancyCompressor.compress`; documents come in score order, so the better copy is the one kept. */
  method DropRepeats(sqrt: real -> real, embed: seq<string> -> seq<Vector>, documents: seq<ScoredDocument>,
                     threshold: real, ghost width: nat)
    returns (r: seq<ScoredDocument>, ghost kept: seq<nat>)
    requires Embeds(embed, width)
    ensures Funnels(documents, r)
    ensures if |documents| < 2 then r == documents
            else
              && Selects(documents, kept, r)
              && Deduplicates(Near(sqrt, threshold, embed(Contents(documents))), |documents|, kept)
  {
    kept := [];
    if |documents| < 2 {
      FunnelsSame(documents);
      return documents, kept;
    }
    var vectors := embed(Contents(documents));
    r, kept := Unrepeated(sqrt, vectors, documents, threshold);
  }

  method Unrepeated(sqrt: real -> real, vectors: seq<Vector>, documents: seq<ScoredDocument>, threshold: real)
    returns (r: seq<ScoredDocument>, ghost kept: seq<nat>)
    requires |vectors| == |documents|
    ensures Funnels(documents, r) && Selects(documents, kept, r)
    ensures Deduplicates(Near(sqrt, threshold, vectors), |documents|, kept)
  {
    ghost var near := Near(sqrt, threshold, vectors);
    var keptVectors: seq<Vector> := [];
    r, kept := [], [];
    for i := 0 to |documents|
      invariant Selects(documents, kept, r) && Deduplicates(near, i, kept)
      invariant VectorsAt(vectors, kept, keptVectors)
      invariant Funnels(documents[..i], r)
    {
      OneFurther(documents, i, r, documents[i]);
      RepeatsAt(sqrt, threshold, vectors, i, kept, keptVectors);
      if Repeats(sqrt, threshold, vectors[i], keptVectors) {
        DropStep(near, i, kept);
        continue;
      }
      KeepStep(near, i, kept);
      r, keptVectors, kept := r + [documents[i]], keptVectors + [vectors[i]], kept + [i];
    }
    assert documents[..|documents|] == documents;
  }

  lemma OneFurther(documents: seq<ScoredDocument>, i: nat, r: seq<ScoredDocument>, y: ScoredDocument)
    requires i < |documents| && Funnels(documents[..i], r) && Trims(documents[i], y)
    ensures Funnels(documents[..i + 1], r) && Funnels(documents[..i + 1], r + [y])
  {
    assert documents[..i + 1] == documents[..i] + [documents[i]];
    FunnelDrops(documents[..i], r, documents[i]);
    FunnelKeeps(documents[..i], r, documents[i], y);
  }

  // --------------------------------------------------------------- sentences

  function SplitAll(documents: seq<ScoredDocument>): seq<seq<string>> {
    seq(|documents|, i requires 0 <= i < |documents| => SentencesOf(Content(documents[i])))
  }

  function Flat(groups: seq<seq<string>>): seq<string> {
    if groups == [] then [] else Flat(groups[..|groups| - 1]) + groups[|groups| - 1]
  }

  /** Where group `i` starts in the flattened list. */
  function Offset(groups: seq<seq<string>>, i: nat): nat
    requires i <= |groups|
  {
    if i == 0 then 0 else Offset(groups, i - 1) + |groups[i - 1]|
  }

  /** The cursor's windows are the groups. */
  lemma {:induction false} WindowsLineUp(groups: seq<seq<string>>, i: nat)
    requires i < |groups|
    ensures Offset(groups, i) + |groups[i]| <= |Flat(groups)|
    ensures Flat(groups)[Offset(groups, i)..Offset(groups, i) + |groups[i]|] == groups[i]
    ensures i == |groups| - 1 ==> Offset(groups, i) + |groups[i]| == |Flat(groups)|
  {
    var n := |groups| - 1;
    var before := groups[..n];
    if i < n {
      WindowsLineUp(before, i);
      SameOffset(groups, before, i);
    } else {
      SameOffset(groups, before, n);
      if n > 0 {
        WindowsLineUp(before, n - 1);
      }
    }
  }

  lemma {:induction false} SameOffset(groups: seq<seq<string>>, before: seq<seq<string>>, i: nat)
    requires i <= |before| && before <= groups
    ensures Offset(groups, i) == Offset(before, i)
  {
    if i > 0 {
      SameOffset(groups, before, i - 1);
    }
  }

  /** First position of the largest score. */
  function BestOf(scores: seq<real>): (b: nat)
    requires scores != []
    ensures b < |scores| && forall j :: 0 <= j < |scores| ==>
              if j < b then scores[j] < scores[b] else scores[j] <= scores[b]
  {
    if |scores| == 1 then 0
    else
      var n := |scores| - 1;
      var before := BestOf(scores[..n]);
      if scores[n] > scores[before] then n else before
  }

  /** The sentences a document is rebuilt from: those that bear on the query, or else the best one. */
  function Chosen(sentences: seq<string>, scores: seq<real>, least: real): seq<string>
    requires |sentences| == |scores| && sentences != []
  {
    var kept := AtLeast(sentences, scores, least);
    if kept == [] then [sentences[BestOf(scores)]] else kept
  }

  /** `_rebuild` */
  function Rebuilt(scored: ScoredDocument, sentences: seq<string>, scores: seq<real>, least: real): ScoredDocument
    requires |sentences| == |scores|
  {
    if sentences == [] then scored else WithContent(scored, Join(Chosen(sentences, scores, least)))
  }

  /** Never emptied, and made of its own sentences only. */
  lemma ChosenAreItsOwn(sentences: seq<string>, scores: seq<real>, least: real)
    requires |sentences| == |scores| && sentences != []
    ensures Chosen(sentences, scores, least) != [] && Subsequence(Chosen(sentences, scores, least), sentences)
    ensures forall j :: 0 <= j < |sentences| && scores[j] >= least ==> sentences[j] in Chosen(sentences, scores, least)
    ensures (exists j :: 0 <= j < |scores| && scores[j] >= least) ==>
              Chosen(sentences, scores, least) == Filtered(sentences, Qualifies(scores, least))
    ensures (forall j :: 0 <= j < |scores| ==> scores[j] < least) ==>
              Chosen(sentences, scores, least) == [sentences[BestOf(scores)]]
  {
    AtLeastSelects(sentences, scores, least);
    KeepsWhatQualifies(sentences, scores, least);
    OneSelects(sentences, BestOf(scores));
  }

  /** Rebuilding never lengthens a document. */
  lemma RebuildingTrims(scored: ScoredDocument, sentences: seq<string>, scores: seq<real>, least: real)
    requires |scores| == |sentences| && Room(sentences) <= |Content(scored)| + 1
    ensures Trims(scored, Rebuilt(scored, sentences, scores, least))
  {
    if sentences != [] {
      var chosen := Chosen(sentences, scores, least);
      ChosenAreItsOwn(sentences, scores, least);
      SubsequenceRoom(chosen, sentences);
      JoinRoom(chosen);
    }
  }

  function Similarities(sqrt: real -> real, query: Vector, vectors: seq<Vector>): seq<real>
    requires OneWidth(vectors, |query|)
  {
    seq(|vectors|, i requires 0 <= i < |vectors| => Cosine(sqrt, query, vectors[i]))
  }

  /** The scores of group `i`, cut from those of the flattened list. */
  function Window(groups: seq<seq<string>>, scores: seq<real>, i: nat): (w: seq<real>)
    requires i < |groups| && |scores| == |Flat(groups)|
    ensures |w| == |groups[i]|
  {
    WindowsLineUp(groups, i);
    scores[Offset(groups, i)..Offset(groups, i) + |groups[i]|]
  }

  lemma WindowIs(groups: seq<seq<string>>, scores: seq<real>, i: nat, cursor: nat)
    requires i < |groups| && |scores| == |Flat(groups)| && cursor == Offset(groups, i)
    ensures cursor + |groups[i]| <= |scores| && scores[cursor..cursor + |groups[i]|] == Window(groups, scores, i)
  {
    WindowsLineUp(groups, i);
  }

  /** Score `j` of window `i` is the cosine of sentence `j` of document `i`, when the service embeds each text alone. */
  lemma WindowScores(sqrt: real -> real, query: Vector, one: string -> Vector, groups: seq<seq<string>>, i: nat, j: nat)
    requires forall text :: |one(text)| == |query|
    requires i < |groups| && j < |groups[i]|
    ensures var flat := Flat(groups);
            var vectors := seq(|flat|, n requires 0 <= n < |flat| => one(flat[n]));
            Window(groups, Similarities(sqrt, query, vectors), i)[j] == Cosine(sqrt, query, one(groups[i][j]))
  {
    WindowsLineUp(groups, i);
    var flat, at := Flat(groups), Offset(groups, i);
    assert flat[at..at + |groups[i]|][j] == flat[at + j];
  }

  /** Document `i`, rebuilt from the sentences its own window of scores selects. */
  function RebuiltAt(documents: seq<ScoredDocument>, groups: seq<seq<string>>, scores: seq<real>, least: real,
                     i: nat): ScoredDocument
    requires |groups| == |documents| && i < |documents| && |scores| == |Flat(groups)|
  {
    Rebuilt(documents[i], groups[i], Window(groups, scores, i), least)
  }

  /** Nothing to work with changes nothing; otherwise every document is rebuilt in its place. */
  ghost predicate Trimmed(sqrt: real -> real, embed: seq<string> -> seq<Vector>, query: Vector,
                          documents: seq<ScoredDocument>, least: real, r: seq<ScoredDocument>)
    requires Serves(embed, query)
  {
    var groups := SplitAll(documents);
    if documents == [] || query == [] || Flat(groups) == [] then r == documents
    else
      var scores := Similarities(sqrt, query, embed(Flat(groups)));
      |r| == |documents| && forall i :: 0 <= i < |documents| ==> r[i] == RebuiltAt(documents, groups, scores, least, i)
  }

  /** `SentenceCompressor.compress`: one batch for every sentence of every document, then a window each. */
  method TrimSentences(sqrt: real -> real, embed: seq<string> -> seq<Vector>, query: Vector,
                       documents: seq<ScoredDocument>, least: real)
    returns (r: seq<ScoredDocument>)
    requires Serves(embed, query)
    ensures Funnels(documents, r) && |r| == |documents|
    ensures Trimmed(sqrt, embed, query, documents, least, r)
  {
    FunnelsSame(documents);
    if documents == [] || query == [] {
      return documents;
    }
    var split := SplitAll(documents);
    var flat := Flat(split);
    if flat == [] {
      return documents;
    }
    var scores := Similarities(sqrt, query, embed(flat));
    forall i | 0 <= i < |documents| ensures Room(split[i]) <= |Content(documents[i])| + 1 {
      GroupsFit(documents, i);
    }
    r := RebuildAll(documents, split, scores, least);
  }

  lemma GroupsFit(documents: seq<ScoredDocument>, i: nat)
    requires i < |documents|
    ensures Room(SplitAll(documents)[i]) <= |Content(documents[i])| + 1
  {
    SentencesFit(Content(documents[i]));
  }

  lemma RebuiltAtTrims(documents: seq<ScoredDocument>, groups: seq<seq<string>>, scores: seq<real>, least: real, i: nat)
    requires |groups| == |documents| && i < |documents| && |scores| == |Flat(groups)|
    requires Room(groups[i]) <= |Content(documents[i])| + 1
    ensures Trims(documents[i], RebuiltAt(documents, groups, scores, least, i))
  {
    RebuildingTrims(documents[i], groups[i], Window(groups, scores, i), least);
  }

  method RebuildAll(documents: seq<ScoredDocument>, split: seq<seq<string>>, scores: seq<real>, least: real)
    returns (r: seq<ScoredDocument>)
    requires |split| == |documents| && |scores| == |Flat(split)|
    requires forall i :: 0 <= i < |documents| ==> Room(split[i]) <= |Content(documents[i])| + 1
    ensures Funnels(documents, r) && |r| == |documents|
    ensures forall i :: 0 <= i < |documents| ==> r[i] == RebuiltAt(documents, split, scores, least, i)
  {
    r := [];
    var cursor := 0;
    for i := 0 to |documents|
      invariant |r| == i && cursor == Offset(split, i) && Funnels(documents[..i], r)
      invariant forall d :: 0 <= d < i ==> r[d] == RebuiltAt(documents, split, scores, least, d)
    {
      RebuiltAtTrims(documents, split, scores, least, i);
      WindowIs(split, scores, i, cursor);
      var rebuilt := Rebuilt(documents[i], split[i], scores[cursor..cursor + |split[i]|], least);
      cursor := cursor + |split[i]|;
      OneFurther(documents, i, r, rebuilt);
      r := r + [rebuilt];
    }
    assert documents[..|documents|] == documents;
  }

  // ------------------------------------------------------------------ budget

  /** How many documents from position `i` on have no content at all. */
  function Empties(documents: seq<ScoredDocument>, i: nat): (n: nat)
    requires i <= |documents|
    ensures i + n <= |documents|
    ensures forall j :: i <= j < i + n ==> Content(documents[j]) == ""
    ensures i + n < |documents| ==> Content(documents[i + n]) != ""
    decreases |documents| - i
  {
    if i == |documents| || Content(documents[i]) != "" then 0 else 1 + Empties(documents, i + 1)
  }

  /** The first document, cut to the budget. */
  function Cut(documents: seq<ScoredDocument>, budget: nat): ScoredDocument
    requires documents != [] && |Content(documents[0])| > budget
  {
    WithContent(documents[0], Content(documents[0])[..budget])
  }

  /** Whole documents while they fit, and no fewer. The first, if too long, is cut
      to the budget; what still fits after it is empty documents. */
  ghost predicate Fits(documents: seq<ScoredDocument>, budget: nat, r: seq<ScoredDocument>) {
    if documents != [] && |Content(documents[0])| > budget then
      r == [Cut(documents, budget)] + documents[1..1 + Empties(documents, 1)]
    else
      && r <= documents && Characters(r) <= budget
      && (|r| < |documents| ==> Characters(r) + |Content(documents[|r|])| > budget)
  }

  /** `r` is what the budget leaves of the first `i` documents, with `remaining` to spend. */
  ghost predicate Spent(documents: seq<ScoredDocument>, budget: nat, i: nat, r: seq<ScoredDocument>, remaining: nat)
    requires i <= |documents|
  {
    && Funnels(documents[..i], r) && |r| == i && Characters(r) + remaining == budget
    && if i > 0 && |Content(documents[0])| > budget
       then remaining == 0 && r == [Cut(documents, budget)] + documents[1..i] && i - 1 <= Empties(documents, 1)
       else r == documents[..i]
  }

  lemma SpendsOne(documents: seq<ScoredDocument>, i: nat, r: seq<ScoredDocument>, y: ScoredDocument)
    requires i < |documents| && Funnels(documents[..i], r) && Trims(documents[i], y)
    ensures Funnels(documents[..i + 1], r + [y]) && Characters(r + [y]) == Characters(r) + |Content(y)|
  {
    OneFurther(documents, i, r, y);
    assert (r + [y])[..|r|] == r;
  }

  lemma KeepsWhole(documents: seq<ScoredDocument>, budget: nat, i: nat, r: seq<ScoredDocument>, remaining: nat)
    requires i < |documents| && Spent(documents, budget, i, r, remaining) && |Content(documents[i])| <= remaining
    ensures Spent(documents, budget, i + 1, r + [documents[i]], remaining - |Content(documents[i])|)
  {
    SpendsOne(documents, i, r, documents[i]);
    if i > 0 && |Content(documents[0])| > budget {
      assert documents[1..i + 1] == documents[1..i] + [documents[i]];
    }
  }

  lemma CutsFirst(documents: seq<ScoredDocument>, budget: nat)
    requires documents != [] && |Content(documents[0])| > budget
    ensures Spent(documents, budget, 1, [Cut(documents, budget)], 0)
  {
    assert documents[..0] == [];
    SpendsOne(documents, 0, [], Cut(documents, budget));
    assert [] + [Cut(documents, budget)] == [Cut(documents, budget)];
  }

  /** Where the next document does not fit, or there is none, nothing more can be kept. */
  lemma SpentFits(documents: seq<ScoredDocument>, budget: nat, i: nat, r: seq<ScoredDocument>, remaining: nat)
    requires i <= |documents| && Spent(documents, budget, i, r, remaining)
    requires i < |documents| ==> i > 0 && |Content(documents[i])| > remaining
    ensures Fits(documents, budget, r) && Funnels(documents, r)
  {
    CutFunnels(documents, i);
    FunnelsThenFunnels(documents, documents[..i], r);
  }

  /** `BudgetCompressor.compress` */
  method Fit(documents: seq<ScoredDocument>, budget: nat) returns (r: seq<ScoredDocument>)
    ensures Funnels(documents, r) && Characters(r) <= budget
    ensures Fits(documents, budget, r)
  {
    r := [];
    var remaining: nat := budget;
    var i := 0;
    while i < |documents|
      invariant 0 <= i <= |documents| && Spent(documents, budget, i, r, remaining)
    {
      var scored := documents[i];
      var length := |Content(scored)|;
      if length <= remaining {
        KeepsWhole(documents, budget, i, r, remaining);
        r := r + [scored];
        remaining := remaining - length;
      } else if r == [] {
        CutsFirst(documents, budget);
        r := [WithContent(scored, Content(scored)[..budget])];
        remaining := 0;
      } else {
        break;
      }
      i := i + 1;
    }
    SpentFits(documents, budget, i, r, remaining);
  }

  // ---------------------------------------------------------------- pipeline

  datatype Stage = Threshold(least: real) | Redundancy(threshold: real) | SentenceLevel(least: real) | Budget(max: nat)

  datatype Settings = Settings(minRelevance: real, redundancyThreshold: real, sentenceLevel: bool, maxCharacters: nat)

  /** `default_pipeline` */
  function DefaultPipeline(cfg: Settings): seq<Stage> {
    [Threshold(cfg.minRelevance), Redundancy(cfg.redundancyThreshold)]
    + (if cfg.sentenceLevel then [SentenceLevel(cfg.minRelevance)] else [])
    + [Budget(cfg.maxCharacters)]
  }

  /** What one stage makes of `before`. */
  ghost predicate Did(sqrt: real -> real, embed: seq<string> -> seq<Vector>, query: Vector, stage: Stage,
                      before: seq<ScoredDocument>, after: seq<ScoredDocument>)
    requires Serves(embed, query)
  {
    match stage
    case Threshold(least) => after == Strong(before, least)
    case Redundancy(threshold) =>
      if |before| < 2 then after == before
      else exists kept ::
             && Selects(before, kept, after)
             && Deduplicates(Near(sqrt, threshold, embed(Contents(before))), |before|, kept)
    case SentenceLevel(least) => Trimmed(sqrt, embed, query, before, least, after)
    case Budget(max) => Fits(before, max, after)
  }

  method Compress(sqrt: real -> real, embed: seq<string> -> seq<Vector>, query: Vector, stage: Stage,
                  documents: seq<ScoredDocument>)
    returns (r: seq<ScoredDocument>)
    requires Serves(embed, query)
    ensures Funnels(documents, r) && Did(sqrt, embed, query, stage, documents, r)
    ensures stage.Budget? ==> Characters(r) <= stage.max
  {
    match stage {
      case Threshold(least) => r := Strong(documents, least);
      case Redundancy(threshold) =>
        ghost var width :| Embeds(embed, width);
        ghost var kept;
        r, kept := DropRepeats(sqrt, embed, documents, threshold, width);
      case SentenceLevel(least) => r := TrimSentences(sqrt, embed, query, documents, least);
      case Budget(max) => r := Fit(documents, max);
    }
  }

  /** `p` holds of each state and the next, with the position of the step. */
  ghost predicate EachStep<T>(states: seq<T>, p: (nat, T, T) -> bool) {
    forall i :: 0 <= i < |states| - 1 ==> p(i, states[i], states[i + 1])
  }

  lemma OneMoreStep<T>(states: seq<T>, next: T, p: (nat, T, T) -> bool)
    requires states != [] && EachStep(states, p) && p(|states| - 1, states[|states| - 1], next)
    ensures EachStep(states + [next], p)
  {
    var grown := states + [next];
    forall i | 0 <= i < |grown| - 1 ensures p(i, grown[i], grown[i + 1]) {
      assert grown[i] == states[i] && grown[i + 1] == if i < |states| - 1 then states[i + 1] else next;
    }
  }

  /** A step is a funnel, and its own stage's work. */
  ghost function Stepping(sqrt: real -> real, embed: seq<string> -> seq<Vector>, query: Vector,
                          stages: seq<Stage>): (nat, seq<ScoredDocument>, seq<ScoredDocument>) -> bool
    requires Serves(embed, query)
  {
    (i: nat, before: seq<ScoredDocument>, after: seq<ScoredDocument>) =>
      && i < |stages| && Did(sqrt, embed, query, stages[i], before, after)
      && Funnels(before, after)
  }

  /** The stages of a pipeline that ran, from what to what, and what the trace says of their sizes. */
  ghost predicate Ran(sqrt: real -> real, embed: seq<string> -> seq<Vector>, query: Vector, stages: seq<Stage>,
                      states: seq<seq<ScoredDocument>>, sizes: seq<(nat, nat)>)
    requires Serves(embed, query)
  {
    && |states| == |sizes| + 1 && |sizes| <= |stages|
    && EachStep(states, Stepping(sqrt, embed, query, stages))
    && (forall i :: 0 <= i < |sizes| ==> sizes[i] == (|states[i]|, |states[i + 1]|))
    && (forall i :: 0 < i < |sizes| ==> states[i] != [])
  }

  lemma OneMoreRan(sqrt: real -> real, embed: seq<string> -> seq<Vector>, query: Vector, stages: seq<Stage>,
                   states: seq<seq<ScoredDocument>>, sizes: seq<(nat, nat)>, next: seq<ScoredDocument>)
    requires Serves(embed, query) && Ran(sqrt, embed, query, stages, states, sizes) && |sizes| < |stages|
    requires var last := states[|sizes|];
             Did(sqrt, embed, query, stages[|sizes|], last, next) && Funnels(last, next) && (sizes == [] || last != [])
    ensures Ran(sqrt, embed, query, stages, states + [next], sizes + [(|states[|sizes|]|, |next|)])
  {
    OneMoreStep(states, next, Stepping(sqrt, embed, query, stages));
  }

  /** `_run_pipeline`: each stage gets what the one before it kept; an empty set ends the run. */
  method RunPipeline(sqrt: real -> real, embed: seq<string> -> seq<Vector>, query: Vector, stages: seq<Stage>,
                     documents: seq<ScoredDocument>)
    returns (current: seq<ScoredDocument>, sizes: seq<(nat, nat)>, ghost states: seq<seq<ScoredDocument>>)
    requires Serves(embed, query)
    ensures Funnels(documents, current)
    ensures stages != [] && stages[|stages| - 1].Budget? ==> Characters(current) <= stages[|stages| - 1].max
    ensures Ran(sqrt, embed, query, stages, states, sizes)
    ensures states[0] == documents && states[|states| - 1] == current
    ensures |sizes| < |stages| ==> current == []
  {
    current, sizes, states := documents, [], [documents];
    FunnelsSame(documents);
    for i := 0 to |stages|
      invariant Funnels(documents, current) && |sizes| == i
      invariant i > 0 && stages[i - 1].Budget? ==> Characters(current) <= stages[i - 1].max
      invariant i > 0 ==> current != []
      invariant Ran(sqrt, embed, query, stages, states, sizes)
      invariant states[0] == documents && states[i] == current
    {
      var before := current;
      current := Compress(sqrt, embed, query, stages[i], before);
      FunnelsThenFunnels(documents, before, current);
      OneMoreRan(sqrt, embed, query, stages, states, sizes, current);
      sizes, states := sizes + [(|before|, |current|)], states + [current];
      if current == [] {
        break;
      }
    }
  }

  /** The standard funnel, stage by stage: relevance, then repeats, then sentences at the
      same relevance if they are asked for, then the budget. */
  function StandardStages(cfg: Settings): seq<Stage> {
    if cfg.sentenceLevel then
      [Threshold(cfg.minRelevance), Redundancy(cfg.redundancyThreshold), SentenceLevel(cfg.minRelevance),
       Budget(cfg.maxCharacters)]
    else [Threshold(cfg.minRelevance), Redundancy(cfg.redundancyThreshold), Budget(cfg.maxCharacters)]
  }

  lemma PipelineIsStandard(cfg: Settings)
    ensures DefaultPipeline(cfg) == StandardStages(cfg)
  {
  }

  /** A run of the standard funnel over `documents` that leaves `compressed`. */
  ghost predicate Compressed(sqrt: real -> real, embed: seq<string> -> seq<Vector>, query: Vector, cfg: Settings,
                             documents: seq<ScoredDocument>, compressed: seq<ScoredDocument>,
                             states: seq<seq<ScoredDocument>>, sizes: seq<(nat, nat)>)
    requires Serves(embed, query)
  {
    && Ran(sqrt, embed, query, StandardStages(cfg), states, sizes)
    && states[0] == documents && states[|states| - 1] == compressed
    && (|sizes| < |StandardStages(cfg)| ==> compressed == [])
  }

  lemma {:induction false} FloorLasts(states: seq<seq<ScoredDocument>>, n: nat, least: real,
                                      p: (nat, seq<ScoredDocument>, seq<ScoredDocument>) -> bool)
    requires 0 < n < |states| && EachStep(states, p) && forall i, a, b :: p(i, a, b) ==> Funnels(a, b)
    requires forall i :: 0 <= i < |states[1]| ==> states[1][i].score >= least
    ensures forall i :: 0 <= i < |states[n]| ==> states[n][i].score >= least
  {
    if n > 1 {
      FloorLasts(states, n - 1, least, p);
      assert p(n - 1, states[n - 1], states[n - 1 + 1]);
      FunnelKeepsScores(states[n - 1], states[n], least);
    }
  }

  /** The first stage sets the floor for what comes out. */
  lemma FirstStageFloor(sqrt: real -> real, embed: seq<string> -> seq<Vector>, query: Vector, cfg: Settings,
                        documents: seq<ScoredDocument>, compressed: seq<ScoredDocument>,
                        states: seq<seq<ScoredDocument>>, sizes: seq<(nat, nat)>)
    requires Serves(embed, query) && Compressed(sqrt, embed, query, cfg, documents, compressed, states, sizes)
    ensures forall i :: 0 <= i < |compressed| ==> compressed[i].score >= cfg.minRelevance
  {
    if sizes != [] {
      var p := Stepping(sqrt, embed, query, StandardStages(cfg));
      assert p(0, states[0], states[0 + 1]);
      assert forall i :: 0 <= i < |states[1]| ==> states[1][i] in states[1];
      FloorLasts(states, |sizes|, cfg.minRelevance, p);
    }
  }

  /** What is left after cutting a funnel's output to the first `n`. */
  lemma FirstOnes(documents: seq<ScoredDocument>, kept: seq<ScoredDocument>, n: nat)
    requires Funnels(documents, kept) && n <= |kept|
    ensures Funnels(documents, kept[..n]) && Subsequence(IdsOf(kept[..n]), IdsOf(documents))
    ensures Characters(kept[..n]) <= Characters(kept) <= Characters(documents)
  {
    CutFunnels(kept, n);
    FunnelShrinks(kept, kept[..n]);
    FunnelsThenFunnels(documents, kept, kept[..n]);
    FunnelShrinks(documents, kept);
    FunnelKeepsOrder(documents, kept[..n]);
  }

  /** `search` with compression on: run the standard funnel and return at most `topK`. */
  method CompressedSearch(sqrt: real -> real, embed: seq<string> -> seq<Vector>, query: Vector, cfg: Settings,
                          documents: seq<ScoredDocument>, topK: nat)
    returns (r: seq<ScoredDocument>, ghost compressed: seq<ScoredDocument>)
    requires Serves(embed, query)
    ensures Funnels(documents, r) && Subsequence(IdsOf(r), IdsOf(documents))
    ensures Characters(r) <= cfg.maxCharacters && Characters(r) <= Characters(documents)
    ensures forall i :: 0 <= i < |r| ==> r[i].score >= cfg.minRelevance
    ensures exists states, sizes :: Compressed(sqrt, embed, query, cfg, documents, compressed, states, sizes)
    ensures r == if |compressed| > topK then compressed[..topK] else compressed
  {
    var kept, sizes;
    ghost var states;
    PipelineIsStandard(cfg);
    kept, sizes, states := RunPipeline(sqrt, embed, query, DefaultPipeline(cfg), documents);
    compressed := kept;
    r := if |kept| > topK then kept[..topK] else kept;
    assert r == kept[..|r|];
    FirstOnes(documents, kept, |r|);
    assert Compressed(sqrt, embed, query, cfg, documents, kept, states, sizes);
    FirstStageFloor(sqrt, embed, query, cfg, documents, kept, states, sizes);
  }
}
