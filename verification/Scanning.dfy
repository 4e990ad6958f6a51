/** Trying ranked candidates one by one until one is usable.

    `attempt` tries one candidate, at its position, in the state the ones before
    left: it returns what it leaves, and the entry if there is a usable one.
 */
module Scanning {
  import opened Wrappers
  import opened Sorting

  /** The state after the scan, the position of the first usable candidate - or
      the number of candidates - and its entry. */
  function Scan<S, K, E>(attempt: (S, K, nat) -> (S, Option<E>), s: S, ranked: seq<Scored<K>>,
                         i: nat): (S, nat, Option<E>)
    requires i <= |ranked|
    decreases |ranked| - i
  {
    if i == |ranked| then (s, i, None)
    else
      var (next, found) := attempt(s, ranked[i].item, i);
      if found.Some? then (next, i, found) else Scan(attempt, next, ranked, i + 1)
  }

  lemma {:induction false} ScanEnds<S, K, E>(attempt: (S, K, nat) -> (S, Option<E>), s: S, ranked: seq<Scored<K>>,
                                             i: nat)
    requires i <= |ranked|
    ensures var (_, p, found) := Scan(attempt, s, ranked, i); i <= p <= |ranked| && (found.Some? <==> p < |ranked|)
    decreases |ranked| - i
  {
    if i < |ranked| && attempt(s, ranked[i].item, i).1 == None {
      ScanEnds(attempt, attempt(s, ranked[i].item, i).0, ranked, i + 1);
    }
  }

  /** The items at positions `i` to `p`. */
  ghost function Tried<K>(ranked: seq<Scored<K>>, i: nat, p: nat): set<K>
    requires i <= p <= |ranked|
  {
    set j | i <= j < p :: ranked[j].item
  }

  lemma TriedFirst<K>(ranked: seq<Scored<K>>, i: nat, p: nat)
    requires i < p <= |ranked|
    ensures Tried(ranked, i, p) == {ranked[i].item} + Tried(ranked, i + 1, p)
  {
  }

  /** What a failed attempt changes, and a successful one does not. */
  ghost predicate Changes<S(!new), K(!new), E(!new)>(attempt: (S, K, nat) -> (S, Option<E>),
                                                     changed: (S, S, set<K>) -> bool)
  {
    && (forall a {:trigger changed(a, a, {})} :: changed(a, a, {}))
    && (forall a, b, c, g, h {:trigger changed(a, b, g), changed(b, c, h)} :: changed(a, b, g) && changed(b, c, h) ==>
          changed(a, c, g + h))
    && (forall a, k, j: nat {:trigger attempt(a, k, j)} ::
          changed(a, attempt(a, k, j).0, if attempt(a, k, j).1.Some? then {} else {k}))
  }

  /** A scan changes what its failed attempts change. */
  lemma {:induction false} ScanChanges<S(!new), K(!new), E(!new)>(attempt: (S, K, nat) -> (S, Option<E>),
                                                                  changed: (S, S, set<K>) -> bool, s: S,
                                                                  ranked: seq<Scored<K>>, i: nat)
    requires i <= |ranked| && Changes(attempt, changed)
    ensures var (after, p, _) := Scan(attempt, s, ranked, i);
            i <= p <= |ranked| && changed(s, after, Tried(ranked, i, p))
    decreases |ranked| - i
  {
    ScanEnds(attempt, s, ranked, i);
    if i == |ranked| || attempt(s, ranked[i].item, i).1.Some? {
      assert Tried(ranked, i, i) == {};
    } else {
      var next := attempt(s, ranked[i].item, i).0;
      ScanChanges(attempt, changed, next, ranked, i + 1);
      TriedFirst(ranked, i, Scan(attempt, next, ranked, i + 1).1);
    }
  }

  /** What an attempt finds was so in any state a failed attempt came from. */
  ghost predicate Finds<S(!new), K(!new), E(!new)>(attempt: (S, K, nat) -> (S, Option<E>),
                                                   holds: (S, K, E, nat) -> bool)
  {
    && (forall a, k, j: nat {:trigger attempt(a, k, j)} :: attempt(a, k, j).1.Some? ==>
          holds(a, k, attempt(a, k, j).1.value, j))
    && (forall a, k, j: nat, l, e, m: nat {:trigger holds(attempt(a, k, j).0, l, e, m)} ::
          attempt(a, k, j).1 == None && holds(attempt(a, k, j).0, l, e, m) ==> holds(a, l, e, m))
  }

  /** What a scan finds was so from the start. */
  lemma {:induction false} ScanFinds<S(!new), K(!new), E(!new)>(attempt: (S, K, nat) -> (S, Option<E>),
                                                                holds: (S, K, E, nat) -> bool, s: S,
                                                                ranked: seq<Scored<K>>, i: nat)
    requires i <= |ranked| && Finds(attempt, holds)
    ensures var (_, p, found) := Scan(attempt, s, ranked, i);
            found.Some? ==> p < |ranked| && holds(s, ranked[p].item, found.value, p)
    decreases |ranked| - i
  {
    if i < |ranked| && attempt(s, ranked[i].item, i).1 == None {
      var next := attempt(s, ranked[i].item, i).0;
      ScanFinds(attempt, holds, next, ranked, i + 1);
      var (_, p, found) := Scan(attempt, next, ranked, i + 1);
      assert found.Some? ==> holds(attempt(s, ranked[i].item, i).0, ranked[p].item, found.value, p);
    }
  }

  /** An attempt before position `n` fails only on what is not usable, and leaves
      other candidates as usable as they were. */
  ghost predicate Passes<S(!new), K(!new), E(!new)>(attempt: (S, K, nat) -> (S, Option<E>), usable: (S, K) -> bool,
                                                    n: nat)
  {
    && (forall a, k, j: nat {:trigger attempt(a, k, j)} :: j < n && attempt(a, k, j).1 == None ==> !usable(a, k))
    && (forall a, k, j: nat, l {:trigger usable(attempt(a, k, j).0, l)} ::
          attempt(a, k, j).1 == None && l != k && usable(a, l) ==> usable(attempt(a, k, j).0, l))
  }

  /** Nothing a scan tries in vain was usable. */
  lemma {:induction false} ScanPasses<S(!new), K(!new), E(!new)>(attempt: (S, K, nat) -> (S, Option<E>),
                                                                 usable: (S, K) -> bool, s: S, ranked: seq<Scored<K>>,
                                                                 i: nat, j: nat)
    requires i <= j < |ranked| && DistinctItems(ranked)
    requires j < Scan(attempt, s, ranked, i).1 && Passes(attempt, usable, Scan(attempt, s, ranked, i).1)
    ensures !usable(s, ranked[j].item)
    decreases |ranked| - i
  {
    var next := attempt(s, ranked[i].item, i).0;
    if j > i {
      ScanPasses(attempt, usable, next, ranked, i + 1, j);
      assert !usable(next, ranked[j].item);
    }
  }
}
