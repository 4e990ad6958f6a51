/** Reciprocal rank fusion: one score per id from several rankings. */
module RankFusion {
  import opened Wrappers
  import opened OrderedDict
  import opened Sorting
  import G = AgentGraph

  /** A ranking of ids, best first, and its weight. */
  datatype Ranking<K> = Ranking(ids: seq<K>, weight: real)

  type Scores<K> = Dict<K, real>

  /** What one position is worth; ranks start at one. */
  function Share(weight: real, k: nat, position: nat): real {
    weight / (k + position + 1) as real
  }

  /** `fused[id] = fused.get(id, 0.0) + x`: a known id keeps its place in the dictionary. */
  function Credit<K(==)>(d: Scores<K>, id: K, x: real): Scores<K> {
    if id in d.items then Dict(d.order, d.items[id := d.items[id] + x])
    else Dict(d.order + [id], d.items[id := 0.0 + x])
  }

  function FuseOne<K(==)>(d: Scores<K>, r: Ranking<K>, k: nat): Scores<K>
    decreases |r.ids|
  {
    if r.ids == [] then d
    else
      var n := |r.ids| - 1;
      Credit(FuseOne(d, Ranking(r.ids[..n], r.weight), k), r.ids[n], Share(r.weight, k, n))
  }

  function FuseAll<K(==)>(rs: seq<Ranking<K>>, k: nat): Scores<K> {
    if rs == [] then Empty() else FuseOne(FuseAll(rs[..|rs| - 1], k), rs[|rs| - 1], k)
  }

  function Weighted<K>(rankings: seq<seq<K>>, weights: seq<real>): seq<Ranking<K>>
    requires |weights| == |rankings|
  {
    seq(|rankings|, i requires 0 <= i < |rankings| => Ranking(rankings[i], weights[i]))
  }

  /** `reciprocal_rank_fusion`; `None` is the `ValueError` for weights that do not match. */
  method ReciprocalRankFusion<K(==)>(rankings: seq<seq<K>>, weights: Option<seq<real>>, k: nat)
    returns (fused: Option<Scores<K>>)
    ensures fused == None <==> weights.Some? && |weights.value| != |rankings|
    ensures fused.Some? ==>
              var shares := match weights case Some(w) => w case None => seq(|rankings|, _ => 1.0);
              fused.value == FuseAll(Weighted(rankings, shares), k)
  {
    if weights.Some? && |weights.value| != |rankings| {
      return None;
    }
    var factors := match weights case Some(w) => w case None => seq(|rankings|, _ => 1.0);
    ghost var rs := Weighted(rankings, factors);
    var scores: Scores<K> := Empty();
    for i := 0 to |rankings|
      invariant scores == FuseAll(rs[..i], k)
    {
      var ranking, weight := rankings[i], factors[i];
      assert rs[..i + 1][..i] == rs[..i] && rs[..i + 1][i] == Ranking(ranking, weight);
      for position := 0 to |ranking|
        invariant scores == FuseOne(FuseAll(rs[..i], k), Ranking(ranking[..position], weight), k)
      {
        assert ranking[..position + 1][..position] == ranking[..position];
        scores := Credit(scores, ranking[position], Share(weight, k, position));
      }
      assert ranking[..|ranking|] == ranking;
    }
    assert rs[..|rankings|] == rs;
    return Some(scores);
  }

  // ------------------------------------------------------ what a score is

  /** What one ranking contributes to an id: a share for every position it holds. */
  function Contribution<K(==)>(r: Ranking<K>, k: nat, id: K): real
    decreases |r.ids|
  {
    if r.ids == [] then 0.0
    else
      var n := |r.ids| - 1;
      Contribution(Ranking(r.ids[..n], r.weight), k, id) + if r.ids[n] == id then Share(r.weight, k, n) else 0.0
  }

  function Score<K(==)>(rs: seq<Ranking<K>>, k: nat, id: K): real {
    if rs == [] then 0.0 else Score(rs[..|rs| - 1], k, id) + Contribution(rs[|rs| - 1], k, id)
  }

  ghost predicate Appears<K>(rs: seq<Ranking<K>>, id: K) {
    exists i :: 0 <= i < |rs| && id in rs[i].ids
  }

  function ScoreIn<K(==)>(d: Scores<K>, id: K): real {
    if id in d.items then d.items[id] else 0.0
  }

  lemma CreditEffect<K>(d: Scores<K>, id: K, x: real)
    requires Valid(d)
    ensures Valid(Credit(d, id, x))
    ensures forall j :: ScoreIn(Credit(d, id, x), j) == ScoreIn(d, j) + if j == id then x else 0.0
    ensures forall j :: j in Credit(d, id, x).items <==> j in d.items || j == id
  {
  }

  lemma {:induction false} FuseOneScores<K>(d: Scores<K>, r: Ranking<K>, k: nat, id: K)
    requires Valid(d)
    ensures Valid(FuseOne(d, r, k))
    ensures ScoreIn(FuseOne(d, r, k), id) == ScoreIn(d, id) + Contribution(r, k, id)
    ensures id in FuseOne(d, r, k).items <==> id in d.items || id in r.ids
    decreases |r.ids|
  {
    if r.ids != [] {
      var n := |r.ids| - 1;
      var before := Ranking(r.ids[..n], r.weight);
      FuseOneScores(d, before, k, id);
      CreditEffect(FuseOne(d, before, k), r.ids[n], Share(r.weight, k, n));
      assert r.ids == before.ids + [r.ids[n]];
    }
  }

  /** Every id that appears has exactly its score, and no other id has one. */
  lemma {:induction false} FusionScores<K>(rs: seq<Ranking<K>>, k: nat, id: K)
    ensures Valid(FuseAll(rs, k))
    ensures ScoreIn(FuseAll(rs, k), id) == Score(rs, k, id)
    ensures id in FuseAll(rs, k).items <==> Appears(rs, id)
  {
    if rs != [] {
      var n := |rs| - 1;
      FusionScores(rs[..n], k, id);
      FuseOneScores(FuseAll(rs[..n], k), rs[n], k, id);
      assert forall i :: 0 <= i < n ==> rs[..n][i] == rs[i];
    }
  }

  // ------------------------------------------------------------ dominance

  ghost predicate Proper<K>(r: Ranking<K>) {
    r.weight > 0.0 && Distinct(r.ids)
  }

  lemma {:induction false} ContributionAt<K>(r: Ranking<K>, k: nat, id: K)
    requires Distinct(r.ids)
    ensures id !in r.ids ==> Contribution(r, k, id) == 0.0
    ensures forall p :: 0 <= p < |r.ids| && r.ids[p] == id ==> Contribution(r, k, id) == Share(r.weight, k, p)
    decreases |r.ids|
  {
    if r.ids != [] {
      var n := |r.ids| - 1;
      var before := Ranking(r.ids[..n], r.weight);
      ContributionAt(before, k, id);
      assert forall p :: 0 <= p < n ==> before.ids[p] == r.ids[p];
      assert r.ids == before.ids + [r.ids[n]];
    }
  }

  lemma ShareFalls(weight: real, k: nat, p: nat, q: nat)
    requires weight > 0.0 && p < q
    ensures Share(weight, k, p) > Share(weight, k, q) > 0.0
  {
    var a, b := (k + p + 1) as real, (k + q + 1) as real;
    assert (weight / a) * a == weight && (weight / b) * b == weight;
    assert (weight / b) * a < (weight / b) * b;
  }

  /** In every ranking that has `b`, `a` is ahead of it. */
  ghost predicate Ahead<K>(r: Ranking<K>, a: K, b: K) {
    b in r.ids ==> a in r.ids && Position(r.ids, a) < Position(r.ids, b)
  }

  lemma AheadEarnsMore<K>(r: Ranking<K>, k: nat, a: K, b: K)
    requires Proper(r) && Ahead(r, a, b)
    ensures Contribution(r, k, a) >= Contribution(r, k, b)
    ensures a in r.ids ==> Contribution(r, k, a) > Contribution(r, k, b)
  {
    ContributionAt(r, k, a);
    ContributionAt(r, k, b);
    if a in r.ids {
      var p := Position(r.ids, a);
      PositionOf(r.ids, a);
      ShareFalls(r.weight, k, p, p + 1);
      if b in r.ids {
        PositionOf(r.ids, b);
        ShareFalls(r.weight, k, p, Position(r.ids, b));
      }
    }
  }

  lemma PositionOf<K>(ks: seq<K>, k: K)
    requires k in ks && Distinct(ks)
    ensures Position(ks, k) < |ks| && ks[Position(ks, k)] == k
  {
    var i :| 0 <= i < |ks| && ks[i] == k;
    PositionAt(ks, i);
  }

  /** With duplicate-free rankings and positive weights, an id ahead of another
      wherever the other is ranked scores strictly higher. */
  lemma {:induction false} AheadScoresHigher<K>(rs: seq<Ranking<K>>, k: nat, a: K, b: K)
    requires forall i :: 0 <= i < |rs| ==> Proper(rs[i]) && Ahead(rs[i], a, b)
    ensures Score(rs, k, a) >= Score(rs, k, b)
    ensures Appears(rs, a) ==> Score(rs, k, a) > Score(rs, k, b)
  {
    if rs != [] {
      var n := |rs| - 1;
      assert forall i :: 0 <= i < n ==> rs[..n][i] == rs[i];
      AheadScoresHigher(rs[..n], k, a, b);
      AheadEarnsMore(rs[n], k, a, b);
    }
  }

  // ---------------------------------------------------- order independence

  lemma {:induction false} ScoreWithout<K>(rs: seq<Ranking<K>>, k: nat, id: K, i: nat)
    requires i < |rs|
    ensures Score(rs, k, id) == Score(rs[..i] + rs[i + 1..], k, id) + Contribution(rs[i], k, id)
  {
    var n := |rs| - 1;
    if i == n {
      assert rs[..i] + rs[i + 1..] == rs[..n];
    } else {
      var rest := rs[..i] + rs[i + 1..];
      ScoreWithout(rs[..n], k, id, i);
      assert rest[..n - 1] == rs[..n][..i] + rs[..n][i + 1..];
      assert rest[n - 1] == rs[n];
    }
  }

  lemma MultisetSplit<T>(s: seq<T>, i: nat)
    requires i < |s|
    ensures multiset(s[..i] + s[i + 1..]) == multiset(s) - multiset{s[i]}
  {
    assert s == s[..i] + [s[i]] + s[i + 1..];
  }

  lemma SameMember<T>(s: seq<T>, t: seq<T>, x: T)
    requires multiset(s) == multiset(t) && x in s
    ensures x in t
  {
    assert x in multiset(s);
  }

  lemma SameRest<T>(s: seq<T>, t: seq<T>, i: nat)
    requires multiset(s) == multiset(t) && s != [] && i < |t| && t[i] == s[|s| - 1]
    ensures multiset(s[..|s| - 1]) == multiset(t[..i] + t[i + 1..])
  {
    MultisetSplit(t, i);
    MultisetSplit(s, |s| - 1);
    assert s[..|s| - 1] + s[|s| - 1 + 1..] == s[..|s| - 1];
  }

  /** The scores do not depend on the order the rankings come in. */
  lemma {:induction false} OrderDoesNotMatter<K>(rs: seq<Ranking<K>>, qs: seq<Ranking<K>>, k: nat, id: K)
    requires multiset(rs) == multiset(qs)
    ensures Score(rs, k, id) == Score(qs, k, id)
    decreases |rs|
  {
    if rs == [] {
      assert |qs| == |multiset(qs)| == |multiset(rs)|;
    } else {
      var n := |rs| - 1;
      SameMember(rs, qs, rs[n]);
      var i :| 0 <= i < |qs| && qs[i] == rs[n];
      ScoreWithout(qs, k, id, i);
      SameRest(rs, qs, i);
      OrderDoesNotMatter(rs[..n], qs[..i] + qs[i + 1..], k, id);
    }
  }

  lemma SameIdsAppear<K>(rs: seq<Ranking<K>>, qs: seq<Ranking<K>>, id: K)
    requires multiset(rs) == multiset(qs) && Appears(rs, id)
    ensures Appears(qs, id)
  {
    var i :| 0 <= i < |rs| && id in rs[i].ids;
    SameMember(rs, qs, rs[i]);
  }

  /** So the fused result of reordered rankings gives every id the same score. */
  lemma FusionIgnoresOrder<K>(rs: seq<Ranking<K>>, qs: seq<Ranking<K>>, k: nat, id: K)
    requires multiset(rs) == multiset(qs)
    ensures id in FuseAll(rs, k).items <==> id in FuseAll(qs, k).items
    ensures ScoreIn(FuseAll(rs, k), id) == ScoreIn(FuseAll(qs, k), id)
  {
    FusionScores(rs, k, id);
    FusionScores(qs, k, id);
    OrderDoesNotMatter(rs, qs, k, id);
    if Appears(rs, id) {
      SameIdsAppear(rs, qs, id);
    }
    if Appears(qs, id) {
      SameIdsAppear(qs, rs, id);
    }
  }

  // ---------------------------------------------------------- conservation

  function Total<K(==)>(order: seq<K>, scores: map<K, real>): real {
    if order == [] then 0.0
    else Total(order[..|order| - 1], scores) + if order[|order| - 1] in scores then scores[order[|order| - 1]] else 0.0
  }

  function Shares(n: nat, weight: real, k: nat): real {
    if n == 0 then 0.0 else Shares(n - 1, weight, k) + Share(weight, k, n - 1)
  }

  /** What all positions of all rankings are worth together. */
  function AllShares<K>(rs: seq<Ranking<K>>, k: nat): real {
    if rs == [] then 0.0 else AllShares(rs[..|rs| - 1], k) + Shares(|rs[|rs| - 1].ids|, rs[|rs| - 1].weight, k)
  }

  lemma {:induction false} TotalUpdated<K>(order: seq<K>, scores: map<K, real>, id: K, y: real)
    requires Distinct(order)
    ensures Total(order, scores[id := y]) == Total(order, scores)
              + if id in order then y - (if id in scores then scores[id] else 0.0) else 0.0
  {
    if order != [] {
      var n := |order| - 1;
      TotalUpdated(order[..n], scores, id, y);
      assert order == order[..n] + [order[n]];
    }
  }

  lemma CreditTotal<K>(d: Scores<K>, id: K, x: real)
    requires Valid(d)
    ensures Total(Credit(d, id, x).order, Credit(d, id, x).items) == Total(d.order, d.items) + x
  {
    if id in d.items {
      TotalUpdated(d.order, d.items, id, d.items[id] + x);
    } else {
      TotalUpdated(d.order, d.items, id, 0.0 + x);
      assert (d.order + [id])[..|d.order|] == d.order;
    }
  }

  lemma {:induction false} FuseOneTotal<K>(d: Scores<K>, r: Ranking<K>, k: nat)
    requires Valid(d)
    ensures Valid(FuseOne(d, r, k))
    ensures Total(FuseOne(d, r, k).order, FuseOne(d, r, k).items)
              == Total(d.order, d.items) + Shares(|r.ids|, r.weight, k)
    decreases |r.ids|
  {
    if r.ids != [] {
      var n := |r.ids| - 1;
      var before := Ranking(r.ids[..n], r.weight);
      FuseOneTotal(d, before, k);
      CreditEffect(FuseOne(d, before, k), r.ids[n], Share(r.weight, k, n));
      CreditTotal(FuseOne(d, before, k), r.ids[n], Share(r.weight, k, n));
    }
  }

  /** Fusion neither creates nor loses score: all scores together are worth what all positions are. */
  lemma {:induction false} ScoreIsConserved<K>(rs: seq<Ranking<K>>, k: nat)
    ensures Valid(FuseAll(rs, k))
    ensures Total(FuseAll(rs, k).order, FuseAll(rs, k).items) == AllShares(rs, k)
  {
    if rs != [] {
      ScoreIsConserved(rs[..|rs| - 1], k);
      FuseOneTotal(FuseAll(rs[..|rs| - 1], k), rs[|rs| - 1], k);
    }
  }

  // ----------------------------------------------------------------- fusing

  function Ids(found: seq<G.ScoredDocument>): seq<string> {
    seq(|found|, i requires 0 <= i < |found| => found[i].document.id)
  }

  /** The documents by id; where both retrievers found one, the dense copy wins. */
  function ById(dense: seq<G.ScoredDocument>, sparse: seq<G.ScoredDocument>): (m: map<string, G.Document>)
    ensures forall id :: id in m <==> id in Ids(dense) || id in Ids(sparse)
    ensures forall id :: id in m ==> m[id].id == id
    decreases |sparse|, |dense|
  {
    if dense != [] then
      var n := |dense| - 1;
      assert Ids(dense) == Ids(dense[..n]) + [dense[n].document.id];
      ById(dense[..n], sparse)[dense[n].document.id := dense[n].document]
    else if sparse != [] then
      var n := |sparse| - 1;
      assert Ids(sparse) == Ids(sparse[..n]) + [sparse[n].document.id];
      ById(dense, sparse[..n])[sparse[n].document.id := sparse[n].document]
    else map[]
  }

  function Entries<K(==)>(d: Scores<K>): seq<Scored<K>> {
    seq(|d.order|, i requires 0 <= i < |d.order| =>
          Scored(d.order[i], if d.order[i] in d.items then d.items[d.order[i]] else 0.0))
  }

  /** The fused ids, best first. */
  function RankedEntries<K(==)>(d: Scores<K>): seq<Scored<K>> {
    SortedByScore(Entries(d))
  }

  /** The two rankings a hybrid search fuses. */
  function Both(dense: seq<G.ScoredDocument>, sparse: seq<G.ScoredDocument>, denseWeight: real): seq<Ranking<string>> {
    Weighted([Ids(dense), Ids(sparse)], [denseWeight, 1.0 - denseWeight])
  }

  function RankedIds(dense: seq<G.ScoredDocument>, sparse: seq<G.ScoredDocument>, denseWeight: real,
                     k: nat): seq<Scored<string>>
  {
    RankedEntries(FuseAll(Both(dense, sparse, denseWeight), k))
  }

  lemma BothScores(dense: seq<G.ScoredDocument>, sparse: seq<G.ScoredDocument>, denseWeight: real, k: nat, id: string)
    ensures var rs := Both(dense, sparse, denseWeight);
            && (id in FuseAll(rs, k).items <==> id in ById(dense, sparse))
            && (id in FuseAll(rs, k).items ==> FuseAll(rs, k).items[id] == Score(rs, k, id))
  {
    var rs := Both(dense, sparse, denseWeight);
    FusionScores(rs, k, id);
    assert rs[0].ids == Ids(dense) && rs[1].ids == Ids(sparse) && |rs| == 2;
  }

  lemma EntriesAre<K>(d: Scores<K>)
    requires Valid(d)
    ensures DistinctItems(Entries(d))
    ensures forall e :: e in Entries(d) ==> e.item in d.items && e.score == d.items[e.item]
    ensures forall id :: id in d.items ==> Scored(id, d.items[id]) in Entries(d)
  {
    forall id | id in d.items ensures Scored(id, d.items[id]) in Entries(d) {
      var i :| 0 <= i < |d.order| && d.order[i] == id;
      assert Entries(d)[i] == Scored(id, d.items[id]);
    }
  }

  lemma RankingOf<K>(d: Scores<K>)
    requires Valid(d)
    ensures var ranked := RankedEntries(d);
            && DistinctItems(ranked) && Descending(ranked)
            && (forall e :: e in ranked ==> e.item in d.items && e.score == d.items[e.item])
            && (forall id :: id in d.items ==> Scored(id, d.items[id]) in ranked)
  {
    var entries, ranked := Entries(d), RankedEntries(d);
    EntriesAre(d);
    SortedDistinct(entries);
    SortingIsStable(entries);
    forall e | e in ranked ensures e.item in d.items && e.score == d.items[e.item] {
      SortedMember(entries, e);
      assert e in entries;
    }
    forall id | id in d.items ensures Scored(id, d.items[id]) in ranked {
      SortedMember(entries, Scored(id, d.items[id]));
    }
  }

  lemma RankedIdsAre(dense: seq<G.ScoredDocument>, sparse: seq<G.ScoredDocument>, denseWeight: real, k: nat)
    ensures var ranked := RankedIds(dense, sparse, denseWeight, k);
            && DistinctItems(ranked) && Descending(ranked)
            && (forall e :: e in ranked ==>
                  e.item in ById(dense, sparse) && e.score == Score(Both(dense, sparse, denseWeight), k, e.item))
            && (forall id :: id in ById(dense, sparse) ==>
                  Scored(id, Score(Both(dense, sparse, denseWeight), k, id)) in ranked)
  {
    var rs := Both(dense, sparse, denseWeight);
    var d := FuseAll(rs, k);
    ScoreIsConserved(rs, k);
    RankingOf(d);
    forall id ensures id in d.items <==> id in ById(dense, sparse)
      ensures id in d.items ==> d.items[id] == Score(rs, k, id)
    {
      BothScores(dense, sparse, denseWeight, k, id);
    }
  }

  /** `_fuse`: the documents of the best-ranked ids; every id is looked up among the documents given. */
  method Fuse(dense: seq<G.ScoredDocument>, sparse: seq<G.ScoredDocument>, denseWeight: real, k: nat, topK: nat)
    returns (r: seq<G.ScoredDocument>)
    ensures var ranked, byId := RankedIds(dense, sparse, denseWeight, k), ById(dense, sparse);
            && |r| == (if |ranked| > topK then topK else |ranked|)
            && forall i :: 0 <= i < |r| ==>
              ranked[i].item in byId && r[i] == G.ScoredDocument(byId[ranked[i].item], ranked[i].score)
  {
    var byId := ById(dense, sparse);
    var fused := ReciprocalRankFusion([Ids(dense), Ids(sparse)], Some([denseWeight, 1.0 - denseWeight]), k);
    var ranked := RankedEntries(fused.value);
    RankedIdsAre(dense, sparse, denseWeight, k);
    var shown := if |ranked| > topK then ranked[..topK] else ranked;
    assert forall i :: 0 <= i < |shown| ==> shown[i] in ranked;
    r := seq(|shown|, i requires 0 <= i < |shown| && shown[i].item in byId =>
               G.ScoredDocument(byId[shown[i].item], shown[i].score));
  }

  /** Distinct documents in descending fused score, each with the score of its
      id, and nothing left out outranks anything returned. */
  lemma FusedDocuments(dense: seq<G.ScoredDocument>, sparse: seq<G.ScoredDocument>, denseWeight: real, k: nat,
                       r: seq<G.ScoredDocument>)
    requires var ranked, byId := RankedIds(dense, sparse, denseWeight, k), ById(dense, sparse);
             && |r| <= |ranked|
             && forall i :: 0 <= i < |r| ==>
               ranked[i].item in byId && r[i] == G.ScoredDocument(byId[ranked[i].item], ranked[i].score)
    ensures forall i, j :: 0 <= i < j < |r| ==> r[i].document.id != r[j].document.id && r[i].score >= r[j].score
    ensures forall i :: 0 <= i < |r| ==> r[i].score == Score(Both(dense, sparse, denseWeight), k, r[i].document.id)
    ensures forall id, i ::
              && id in ById(dense, sparse) && 0 <= i < |r|
              && Score(Both(dense, sparse, denseWeight), k, id) > r[i].score ==>
              exists j :: 0 <= j < i && r[j].document.id == id
  {
    var ranked := RankedIds(dense, sparse, denseWeight, k);
    RankedIdsAre(dense, sparse, denseWeight, k);
    forall i | 0 <= i < |r|
      ensures r[i].document.id == ranked[i].item
              && r[i].score == Score(Both(dense, sparse, denseWeight), k, ranked[i].item)
    {
      assert ranked[i] in ranked;
    }
    forall id, i | id in ById(dense, sparse) && 0 <= i < |r|
      && Score(Both(dense, sparse, denseWeight), k, id) > r[i].score
      ensures exists j :: 0 <= j < i && r[j].document.id == id
    {
      var p :| 0 <= p < |ranked| && ranked[p] == Scored(id, Score(Both(dense, sparse, denseWeight), k, id));
      assert p < i && r[p].document.id == id;
    }
  }

  // ------------------------------------------------------- hybrid, spelled out

  /** What a retriever's ranking is worth to an id it lists once: its weight over the
      constant plus the rank, counted from one. */
  ghost predicate Worth(found: seq<G.ScoredDocument>, weight: real, k: nat, id: string, x: real) {
    && ((forall i :: 0 <= i < |found| ==> found[i].document.id != id) ==> x == 0.0)
    && (forall i :: 0 <= i < |found| && found[i].document.id == id ==> x == weight / (k as real + i as real + 1.0))
  }

  lemma WorthOf(found: seq<G.ScoredDocument>, weight: real, k: nat, id: string)
    requires Distinct(Ids(found))
    ensures Worth(found, weight, k, id, Contribution(Ranking(Ids(found), weight), k, id))
  {
    var r := Ranking(Ids(found), weight);
    ContributionAt(r, k, id);
    if forall i :: 0 <= i < |found| ==> found[i].document.id != id {
      assert id !in r.ids;
    }
    forall i | 0 <= i < |found| && found[i].document.id == id
      ensures Contribution(r, k, id) == weight / (k as real + i as real + 1.0)
    {
      assert r.ids[i] == id && (k + i + 1) as real == k as real + i as real + 1.0;
    }
  }

  /** The score of an id in a hybrid search: what the dense ranking is worth to it at
      the dense weight, and the sparse one at the rest of the weight. */
  lemma HybridScore(dense: seq<G.ScoredDocument>, sparse: seq<G.ScoredDocument>, denseWeight: real, k: nat, id: string)
    returns (x: real, y: real)
    requires Distinct(Ids(dense)) && Distinct(Ids(sparse))
    ensures Worth(dense, denseWeight, k, id, x) && Worth(sparse, 1.0 - denseWeight, k, id, y)
    ensures Score(Both(dense, sparse, denseWeight), k, id) == x + y
  {
    var rs := Both(dense, sparse, denseWeight);
    x := Contribution(Ranking(Ids(dense), denseWeight), k, id);
    y := Contribution(Ranking(Ids(sparse), 1.0 - denseWeight), k, id);
    WorthOf(dense, denseWeight, k, id);
    WorthOf(sparse, 1.0 - denseWeight, k, id);
    assert |rs| == 2 && rs[0] == Ranking(Ids(dense), denseWeight) && rs[1] == Ranking(Ids(sparse), 1.0 - denseWeight);
    assert rs[..1][..0] == [] && rs[..1][0] == rs[0];
    assert Score(rs[..1], k, id) == x;
  }

  /** Where both retrievers return a document, the dense one's copy is returned; of
      several copies from one retriever, its last. */
  lemma {:induction false} DenseCopyWins(dense: seq<G.ScoredDocument>, sparse: seq<G.ScoredDocument>, i: nat)
    ensures i < |dense| && (forall j :: i < j < |dense| ==> dense[j].document.id != dense[i].document.id) ==>
              var (m, id) := (ById(dense, sparse), dense[i].document.id); id in m && m[id] == dense[i].document
    ensures i < |sparse| && sparse[i].document.id !in Ids(dense)
            && (forall j :: i < j < |sparse| ==> sparse[j].document.id != sparse[i].document.id) ==>
              var (m, id) := (ById(dense, sparse), sparse[i].document.id); id in m && m[id] == sparse[i].document
    decreases |sparse|, |dense|
  {
    if dense != [] {
      var n := |dense| - 1;
      assert Ids(dense) == Ids(dense[..n]) + [dense[n].document.id];
      DenseCopyWins(dense[..n], sparse, i);
    } else if sparse != [] {
      DenseCopyWins(dense, sparse[..|sparse| - 1], i);
    }
  }
}
