/** Maximal marginal relevance: greedy selection balancing relevance and diversity. */
module Mmr {
  import opened Wrappers
  import opened OrderedDict
  import opened Vectors

  /** A selection problem: how relevant each candidate is, and how alike any two are. */
  datatype Pool = Pool(relevance: seq<real>, likeness: (nat, nat) -> real, weight: real)

  /** The largest likeness to anything chosen. */
  function Redundancy(p: Pool, i: nat, chosen: seq<nat>): (r: real)
    requires chosen != []
    ensures forall j :: 0 <= j < |chosen| ==> p.likeness(i, chosen[j]) <= r
    ensures exists j :: 0 <= j < |chosen| && p.likeness(i, chosen[j]) == r
  {
    var last := p.likeness(i, chosen[|chosen| - 1]);
    if |chosen| == 1 then last
    else
      var before := Redundancy(p, i, chosen[..|chosen| - 1]);
      if last > before then last else before
  }

  /** What the next choice maximises; the first one maximises relevance alone. */
  function Objective(p: Pool, i: nat, chosen: seq<nat>): real
    requires i < |p.relevance|
  {
    if chosen == [] then p.relevance[i]
    else p.weight * p.relevance[i] - (1.0 - p.weight) * Redundancy(p, i, chosen)
  }

  /** `i` is the best choice after `chosen`, and the first of the best. */
  ghost predicate Best(p: Pool, i: nat, chosen: seq<nat>) {
    && i < |p.relevance| && i !in chosen
    && forall j :: 0 <= j < |p.relevance| && j !in chosen ==>
         if j < i then Objective(p, j, chosen) < Objective(p, i, chosen)
         else Objective(p, j, chosen) <= Objective(p, i, chosen)
  }

  /** Every position holds the best choice after the ones before it. */
  ghost predicate Greedy(p: Pool, selected: seq<nat>) {
    forall t :: 0 <= t < |selected| ==> Best(p, selected[t], selected[..t])
  }

  /** `x` is the largest likeness of `i` to one already chosen. */
  ghost predicate Largest(p: Pool, i: nat, chosen: seq<nat>, x: real) {
    && (forall s :: 0 <= s < |chosen| ==> p.likeness(i, chosen[s]) <= x)
    && (exists s :: 0 <= s < |chosen| && p.likeness(i, chosen[s]) == x)
  }

  /** After `chosen`, candidate `i` is worth at least what `j` is: its relevance at
      first, then weighted relevance less weighted likeness to its closest choice.
      The earlier of two that are worth the same is preferred. */
  ghost predicate Prefers(p: Pool, chosen: seq<nat>, i: nat, j: nat)
    requires i < |p.relevance| && j < |p.relevance|
  {
    var w, a, b := p.weight, p.relevance[i], p.relevance[j];
    if chosen == [] then a >= b && (j < i ==> a > b)
    else
      forall x, y :: Largest(p, i, chosen, x) && Largest(p, j, chosen, y) ==>
        && w * a - (1.0 - w) * x >= w * b - (1.0 - w) * y
        && (j < i ==> w * a - (1.0 - w) * x > w * b - (1.0 - w) * y)
  }

  lemma LargestIs(p: Pool, i: nat, chosen: seq<nat>, x: real)
    requires chosen != [] && Largest(p, i, chosen, x)
    ensures Redundancy(p, i, chosen) == x
  {
    var s :| 0 <= s < |chosen| && p.likeness(i, chosen[s]) == x;
    var u :| 0 <= u < |chosen| && p.likeness(i, chosen[u]) == Redundancy(p, i, chosen);
  }

  lemma BestIsPreferred(p: Pool, chosen: seq<nat>, i: nat, j: nat)
    requires j < |p.relevance| && j !in chosen && j != i && Best(p, i, chosen)
    ensures Prefers(p, chosen, i, j)
  {
    assert if j < i then Objective(p, j, chosen) < Objective(p, i, chosen)
           else Objective(p, j, chosen) <= Objective(p, i, chosen);
    if chosen != [] {
      forall x, y | Largest(p, i, chosen, x) && Largest(p, j, chosen, y)
        ensures Redundancy(p, i, chosen) == x && Redundancy(p, j, chosen) == y
      {
        LargestIs(p, i, chosen, x);
        LargestIs(p, j, chosen, y);
      }
    }
  }

  // ------------------------------------------------------------ the selection

  function Min(a: int, b: int): int {
    if a < b then a else b
  }

  function Range(n: nat): (r: set<nat>)
    ensures |r| == n && forall i: nat :: i in r <==> i < n
  {
    if n == 0 then {} else Range(n - 1) + {n - 1}
  }

  /** Once nothing remains, everything has been selected. */
  lemma NothingRemains(n: nat, selected: seq<nat>)
    requires Distinct(selected) && forall i :: 0 <= i < n ==> i in selected
    ensures |selected| >= n
  {
    KeyCount(selected);
    SubsetSize(Range(n), set i | i in selected);
  }

  lemma GreedyDistinct(p: Pool, selected: seq<nat>)
    requires Greedy(p, selected)
    ensures Distinct(selected) && forall i :: i in selected ==> i < |p.relevance|
  {
    forall i, j | 0 <= i < j < |selected| ensures selected[i] != selected[j] {
      assert selected[i] in selected[..j];
    }
  }

  lemma GreedyGrows(p: Pool, selected: seq<nat>, best: nat)
    requires Greedy(p, selected) && Best(p, best, selected)
    ensures Greedy(p, selected + [best])
  {
    var grown := selected + [best];
    forall t | 0 <= t < |grown| ensures Best(p, grown[t], grown[..t]) {
      assert grown[..t] == selected[..t];
      assert selected[..|selected|] == selected;
    }
  }

  /** `max(range(n), key=relevance)`: the first of the most relevant. */
  method MostRelevant(p: Pool) returns (first: nat)
    requires p.relevance != []
    ensures Best(p, first, [])
  {
    first := 0;
    for i := 1 to |p.relevance|
      invariant first < i
      invariant forall j :: 0 <= j < i ==>
                  if j < first then p.relevance[j] < p.relevance[first] else p.relevance[j] <= p.relevance[first]
    {
      if p.relevance[i] > p.relevance[first] {
        first := i;
      }
    }
  }

  /** One round over what remains, in ascending order. */
  method NextBest(p: Pool, selected: seq<nat>, remaining: set<nat>) returns (best: nat)
    requires selected != [] && remaining != {}
    requires forall i: nat :: i in remaining <==> i < |p.relevance| && i !in selected
    ensures Best(p, best, selected)
    ensures forall j :: j in remaining && j != best ==> Prefers(p, selected, best, j)
  {
    var found: Option<nat> := None;
    var bestValue := 0.0;
    for index := 0 to |p.relevance|
      invariant found.Some? ==>
                  found.value < index && found.value in remaining && bestValue == Objective(p, found.value, selected)
      invariant found == None ==> forall j :: 0 <= j < index ==> j !in remaining
      invariant found.Some? ==> forall j :: 0 <= j < index && j in remaining ==>
                  if j < found.value then Objective(p, j, selected) < bestValue
                  else Objective(p, j, selected) <= bestValue
    {
      if index in remaining {
        var value := p.weight * p.relevance[index] - (1.0 - p.weight) * Redundancy(p, index, selected);
        if found == None || value > bestValue {
          found, bestValue := Some(index), value;
        }
      }
    }
    var some :| some in remaining;
    best := found.value;
    forall j | j in remaining && j != best ensures Prefers(p, selected, best, j) {
      BestIsPreferred(p, selected, best, j);
    }
  }

  /** The greedy loop. */
  method Select(p: Pool, k: int) returns (selected: seq<nat>)
    requires p.relevance != [] && k > 0
    ensures Greedy(p, selected) && |selected| == Min(k, |p.relevance|)
  {
    var n := |p.relevance|;
    var first := MostRelevant(p);
    GreedyGrows(p, [], first);
    selected := [] + [first];
    var remaining := Range(n) - {first};
    assert forall i :: i in selected <==> i == first;
    while remaining != {} && |selected| < Min(k, n)
      invariant Greedy(p, selected) && 1 <= |selected| <= Min(k, n)
      invariant forall i: nat :: i in remaining <==> i < n && i !in selected
      decreases remaining
    {
      var best := NextBest(p, selected, remaining);
      GreedyGrows(p, selected, best);
      selected := selected + [best];
      remaining := remaining - {best};
    }
    GreedyDistinct(p, selected);
    if remaining == {} {
      NothingRemains(n, selected);
    }
  }

  /** The pool of a query: cosines to it, and between candidates. */
  function PoolOf(sqrt: real -> real, query: Vector, candidates: seq<Vector>, weight: real): Pool
    requires SameWidth(query, candidates)
  {
    Pool(seq(|candidates|, i requires 0 <= i < |candidates| => Cosine(sqrt, query, candidates[i])),
         (i: nat, j: nat) =>
           if i < |candidates| && j < |candidates| then Cosine(sqrt, candidates[i], candidates[j]) else 0.0,
         weight)
  }

  predicate SameWidth(query: Vector, candidates: seq<Vector>) {
    forall i :: 0 <= i < |candidates| ==> |candidates[i]| == |query|
  }

  /** A selection is made of candidates, each preferred to all that remained when it was chosen. */
  ghost predicate EachPreferred(p: Pool, selected: seq<nat>) {
    && (forall t :: 0 <= t < |selected| ==> selected[t] < |p.relevance|)
    && forall t, j: nat :: 0 <= t < |selected| && j < |p.relevance| && j !in selected[..t] && j != selected[t] ==>
         Prefers(p, selected[..t], selected[t], j)
  }

  lemma GreedyIsPreferred(p: Pool, selected: seq<nat>)
    requires Greedy(p, selected)
    ensures EachPreferred(p, selected)
  {
    forall t, j: nat | 0 <= t < |selected| && j < |p.relevance| && j !in selected[..t] && j != selected[t]
      ensures selected[t] < |p.relevance| && Prefers(p, selected[..t], selected[t], j)
    {
      assert Best(p, selected[t], selected[..t]);
      BestIsPreferred(p, selected[..t], selected[t], j);
    }
    forall t | 0 <= t < |selected| ensures selected[t] < |p.relevance| {
      assert Best(p, selected[t], selected[..t]);
    }
  }

  /** The pool holds the cosines with the query, and those between candidates. */
  ghost predicate Cosines(sqrt: real -> real, query: Vector, candidates: seq<Vector>, p: Pool)
    requires SameWidth(query, candidates)
  {
    && |p.relevance| == |candidates|
    && (forall i :: 0 <= i < |candidates| ==> p.relevance[i] == Cosine(sqrt, query, candidates[i]))
    && (forall i, j :: 0 <= i < |candidates| && 0 <= j < |candidates| ==>
          p.likeness(i, j) == Cosine(sqrt, candidates[i], candidates[j]))
  }

  /** `maximal_marginal_relevance`; `None` is the `ValueError` for a candidate of another width. */
  method MaximalMarginalRelevance(sqrt: real -> real, query: Vector, candidates: seq<Vector>, k: int, weight: real)
    returns (selected: Option<seq<nat>>)
    ensures candidates == [] || k <= 0 ==> selected == Some([])
    ensures candidates != [] && k > 0 ==> (selected == None <==> !SameWidth(query, candidates))
    ensures candidates != [] && k > 0 && SameWidth(query, candidates) ==>
              && Greedy(PoolOf(sqrt, query, candidates, weight), selected.value)
              && |selected.value| == Min(k, |candidates|)
              && Distinct(selected.value) && forall i :: i in selected.value ==> i < |candidates|
    ensures candidates != [] && k > 0 && SameWidth(query, candidates) ==>
              exists p: Pool ::
                p.weight == weight && Cosines(sqrt, query, candidates, p) && EachPreferred(p, selected.value)
  {
    if candidates == [] || k <= 0 {
      return Some([]);
    }
    if !SameWidth(query, candidates) {
      return None;
    }
    var chosen := Select(PoolOf(sqrt, query, candidates, weight), k);
    GreedyDistinct(PoolOf(sqrt, query, candidates, weight), chosen);
    selected := Some(chosen);
    GreedyIsPreferred(PoolOf(sqrt, query, candidates, weight), chosen);
    assert Cosines(sqrt, query, candidates, PoolOf(sqrt, query, candidates, weight));
  }

  // --------------------------------------------------------------- diversity

  lemma LargestExists(p: Pool, i: nat, chosen: seq<nat>) returns (x: real)
    requires chosen != []
    ensures Largest(p, i, chosen, x)
  {
    x := Redundancy(p, i, chosen);
  }

  lemma LessTaken(a: real, b: real, v: real, x: real, y: real)
    requires a - v * x >= b - v * y && a <= b && v > 0.0
    ensures x <= y
  {
    if x > y {
      assert v * (x - y) > 0.0;
    }
  }

  lemma Weighted(w: real, a: real, b: real)
    requires w >= 0.0 && a <= b
    ensures w * a <= w * b
  {
    assert w * (b - a) >= 0.0;
  }

  lemma LessAlike(w: real, a: real, b: real, x: real, y: real)
    requires w * a - (1.0 - w) * x >= w * b - (1.0 - w) * y
    requires w == 0.0 || (0.0 <= w < 1.0 && a <= b)
    ensures x <= y
  {
    if w == 0.0 {
      assert w * a == 0.0 && w * b == 0.0;
    } else {
      Weighted(w, a, b);
    }
    LessTaken(w * a, w * b, 1.0 - w, x, y);
  }

  /** What the weight is for. Unless all of it is on relevance, a candidate chosen over
      one at least as relevant is nowhere more like the selection than the other is
      somewhere; with none of it on relevance, this holds whatever the relevance. */
  lemma ChosenForDiversity(p: Pool, selected: seq<nat>, t: nat, j: nat, s: nat)
    requires EachPreferred(p, selected) && s < t < |selected|
    requires j < |p.relevance| && j !in selected[..t] && j != selected[t]
    requires p.weight == 0.0 || (0.0 <= p.weight < 1.0 && p.relevance[selected[t]] <= p.relevance[j])
    ensures exists u :: 0 <= u < t && p.likeness(selected[t], selected[s]) <= p.likeness(j, selected[u])
  {
    var i, chosen := selected[t], selected[..t];
    var x := LargestExists(p, i, chosen);
    var y := LargestExists(p, j, chosen);
    assert Prefers(p, chosen, i, j);
    LessAlike(p.weight, p.relevance[i], p.relevance[j], x, y);
    var u :| 0 <= u < |chosen| && p.likeness(j, chosen[u]) == y;
    assert p.likeness(i, chosen[s]) <= x;
    assert chosen[s] == selected[s] && chosen[u] == selected[u];
  }

  // ------------------------------------------------- what greedy selections are

  lemma BestIsUnique(p: Pool, i: nat, j: nat, chosen: seq<nat>)
    requires Best(p, i, chosen) && Best(p, j, chosen)
    ensures i == j
  {
  }

  /** A greedy selection is determined by its length: asking for fewer gives a
      prefix of asking for more. */
  lemma FewerIsAPrefix(p: Pool, s: seq<nat>, t: seq<nat>)
    requires Greedy(p, s) && Greedy(p, t) && |s| <= |t|
    ensures s == t[..|s|]
  {
    SameChoices(p, s, t, |s|);
    assert s == s[..|s|];
  }

  lemma {:induction false} SameChoices(p: Pool, s: seq<nat>, t: seq<nat>, n: nat)
    requires Greedy(p, s) && Greedy(p, t) && n <= |s| <= |t|
    ensures s[..n] == t[..n]
  {
    if n > 0 {
      SameChoices(p, s, t, n - 1);
      NextChoice(p, s, t, n - 1);
      OneLonger(s, t, n - 1);
    }
  }

  lemma NextChoice(p: Pool, s: seq<nat>, t: seq<nat>, n: nat)
    requires Greedy(p, s) && Greedy(p, t) && n < |s| <= |t| && s[..n] == t[..n]
    ensures s[n] == t[n]
  {
    assert Best(p, s[n], s[..n]) && Best(p, t[n], t[..n]);
    BestIsUnique(p, s[n], t[n], s[..n]);
  }

  lemma OneLonger(s: seq<nat>, t: seq<nat>, n: nat)
    requires n < |s| <= |t| && s[..n] == t[..n] && s[n] == t[n]
    ensures s[..n + 1] == t[..n + 1]
  {
    assert s[..n + 1] == s[..n] + [s[n]] && t[..n + 1] == t[..n] + [t[n]];
  }

  /** With all weight on relevance, the result is a top-k set in descending relevance. */
  lemma PlainRanking(p: Pool, selected: seq<nat>)
    requires Greedy(p, selected) && p.weight == 1.0
    ensures Distinct(selected) && forall i :: i in selected ==> i < |p.relevance|
    ensures forall s, t :: 0 <= s < t < |selected| ==> p.relevance[selected[s]] >= p.relevance[selected[t]]
    ensures forall i, t :: 0 <= i < |p.relevance| && i !in selected && 0 <= t < |selected| ==>
              p.relevance[i] <= p.relevance[selected[t]]
  {
    GreedyDistinct(p, selected);
    forall s, t | 0 <= s < t < |selected| ensures p.relevance[selected[s]] >= p.relevance[selected[t]] {
      NoBetterLeft(p, selected, s, selected[t]);
    }
    forall i, t | 0 <= i < |p.relevance| && i !in selected && 0 <= t < |selected|
      ensures p.relevance[i] <= p.relevance[selected[t]]
    {
      NoBetterLeft(p, selected, t, i);
    }
  }

  lemma AllOnRelevance(a: real, b: real)
    ensures 1.0 * a - (1.0 - 1.0) * b == a
  {
  }

  lemma PlainObjective(p: Pool, i: nat, chosen: seq<nat>)
    requires p.weight == 1.0 && i < |p.relevance|
    ensures Objective(p, i, chosen) == p.relevance[i]
  {
    if chosen != [] {
      AllOnRelevance(p.relevance[i], Redundancy(p, i, chosen));
    }
  }

  lemma NoBetterLeft(p: Pool, selected: seq<nat>, s: nat, i: nat)
    requires Greedy(p, selected) && p.weight == 1.0 && s < |selected| && i < |p.relevance| && i !in selected[..s]
    ensures p.relevance[i] <= p.relevance[selected[s]]
  {
    var chosen := selected[..s];
    assert Best(p, selected[s], chosen);
    PlainObjective(p, i, chosen);
    PlainObjective(p, selected[s], chosen);
  }

  // ----------------------------------------------------------- re-ranking

  /** A hit from the vector store, with its vector if the store returned it. */
  datatype Match<T> = Match(item: T, embedding: Option<Vector>)

  /** Positions of the candidates that carry a vector. */
  function Usable<T>(candidates: seq<Match<T>>): (r: seq<nat>)
    ensures forall j :: 0 <= j < |r| ==> r[j] < |candidates| && candidates[r[j]].embedding.Some?
    ensures forall i :: 0 <= i < |candidates| && candidates[i].embedding.Some? ==> i in r
    ensures forall i, j :: 0 <= i < j < |r| ==> r[i] < r[j]
  {
    if candidates == [] then []
    else
      var n := |candidates| - 1;
      var before := Usable(candidates[..n]);
      if candidates[n].embedding.Some? then before + [n] else before
  }

  function VectorsOf<T>(candidates: seq<Match<T>>): seq<Vector> {
    var usable := Usable(candidates);
    seq(|usable|, i requires 0 <= i < |usable| => candidates[usable[i]].embedding.value)
  }

  /** The candidates at the chosen positions among the usable ones: different candidates, all with vectors. */
  ghost predicate Picks<T>(candidates: seq<Match<T>>, positions: seq<nat>, r: seq<Match<T>>) {
    var usable := Usable(candidates);
    && |r| == |positions|
    && (forall j :: 0 <= j < |r| ==> positions[j] < |usable| && r[j] == candidates[usable[positions[j]]])
    && (forall j :: 0 <= j < |r| ==> r[j].embedding.Some?)
    && (forall i, j :: 0 <= i < j < |r| ==> usable[positions[i]] != usable[positions[j]])
  }

  /** `_rerank`: distinct candidates that carry vectors, in the greedy order of their vectors. */
  method Rerank<T>(sqrt: real -> real, embedding: Vector, candidates: seq<Match<T>>, topK: nat, weight: real)
    returns (r: Option<seq<Match<T>>>, positions: seq<nat>)
    requires topK > 0
    ensures Usable(candidates) == [] ==> r == Some(if |candidates| > topK then candidates[..topK] else candidates)
    ensures Usable(candidates) != [] ==> (r == None <==> !SameWidth(embedding, VectorsOf(candidates)))
    ensures Usable(candidates) != [] && SameWidth(embedding, VectorsOf(candidates)) ==>
              && Greedy(PoolOf(sqrt, embedding, VectorsOf(candidates), weight), positions)
              && EachPreferred(PoolOf(sqrt, embedding, VectorsOf(candidates), weight), positions)
              && |positions| == Min(topK, |Usable(candidates)|)
              && Picks(candidates, positions, r.value)
  {
    var usable := Usable(candidates);
    if usable == [] {
      return Some(if |candidates| > topK then candidates[..topK] else candidates), [];
    }
    var vectors := VectorsOf(candidates);
    var chosen := MaximalMarginalRelevance(sqrt, embedding, vectors, topK, weight);
    if chosen == None {
      return None, [];
    }
    positions := chosen.value;
    GreedyIsPreferred(PoolOf(sqrt, embedding, vectors, weight), positions);
    assert forall j :: 0 <= j < |positions| ==> positions[j] in positions;
    r := Some(seq(|positions|, j requires 0 <= j < |positions| && positions[j] < |usable| =>
                    candidates[usable[positions[j]]]));
  }
}
