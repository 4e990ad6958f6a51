/** Python's stable sort on a score, highest first (`sort(key=..., reverse=True)`). */
module Sorting {

  datatype Scored<T> = Scored(item: T, score: real)

  /** Puts `x` ahead of everything that does not outrank it. */
  function Insert<T>(x: Scored<T>, s: seq<Scored<T>>): seq<Scored<T>> {
    if s == [] || s[0].score <= x.score then [x] + s else [s[0]] + Insert(x, s[1..])
  }

  function SortedByScore<T>(s: seq<Scored<T>>): seq<Scored<T>> {
    if s == [] then [] else Insert(s[0], SortedByScore(s[1..]))
  }

  ghost predicate Descending<T>(s: seq<Scored<T>>) {
    forall i, j :: 0 <= i < j < |s| ==> s[i].score >= s[j].score
  }

  /** The entries with exactly this score, in order. */
  function Level<T>(s: seq<Scored<T>>, score: real): seq<Scored<T>> {
    if s == [] then [] else (if s[0].score == score then [s[0]] else []) + Level(s[1..], score)
  }

  lemma LevelAhead<T>(x: Scored<T>, s: seq<Scored<T>>, score: real)
    ensures Level([x] + s, score) == (if x.score == score then [x] else []) + Level(s, score)
  {
    assert ([x] + s)[1..] == s;
  }

  lemma InsertUnfolds<T>(x: Scored<T>, s: seq<Scored<T>>)
    requires s != [] && s[0].score > x.score
    ensures Insert(x, s) == [s[0]] + Insert(x, s[1..]) && s == [s[0]] + s[1..]
  {
  }

  lemma {:induction false} InsertLevel<T>(x: Scored<T>, s: seq<Scored<T>>, score: real)
    ensures Level(Insert(x, s), score) == Level([x] + s, score)
  {
    if s != [] && s[0].score > x.score {
      var rest := s[1..];
      InsertUnfolds(x, s);
      InsertLevel(x, rest, score);
      LevelAhead(s[0], Insert(x, rest), score);
      LevelAhead(s[0], rest, score);
      LevelAhead(x, rest, score);
      LevelAhead(x, s, score);
    }
  }

  lemma {:induction false} InsertEntries<T>(x: Scored<T>, s: seq<Scored<T>>)
    ensures multiset(Insert(x, s)) == multiset{x} + multiset(s)
  {
    if !(s == [] || s[0].score <= x.score) {
      InsertEntries(x, s[1..]);
      assert s == [s[0]] + s[1..];
    }
  }

  lemma {:induction false} InsertBelow<T>(x: Scored<T>, s: seq<Scored<T>>, top: real)
    requires x.score <= top && forall i :: 0 <= i < |s| ==> s[i].score <= top
    ensures forall i :: 0 <= i < |Insert(x, s)| ==> Insert(x, s)[i].score <= top
  {
    if s != [] && s[0].score > x.score {
      InsertUnfolds(x, s);
      InsertBelow(x, s[1..], top);
    }
  }

  lemma {:induction false} InsertDescends<T>(x: Scored<T>, s: seq<Scored<T>>)
    requires Descending(s)
    ensures Descending(Insert(x, s))
  {
    if s != [] && s[0].score > x.score {
      InsertUnfolds(x, s);
      InsertDescends(x, s[1..]);
      InsertBelow(x, s[1..], s[0].score);
    }
  }

  /** The result is in descending order, has the same entries, and keeps the
      given order among entries that tie. */
  lemma {:induction false} SortingIsStable<T>(s: seq<Scored<T>>)
    ensures Descending(SortedByScore(s))
    ensures multiset(SortedByScore(s)) == multiset(s)
    ensures forall score :: Level(SortedByScore(s), score) == Level(s, score)
  {
    if s != [] {
      var t := SortedByScore(s[1..]);
      SortingIsStable(s[1..]);
      InsertDescends(s[0], t);
      InsertEntries(s[0], t);
      assert s == [s[0]] + s[1..];
      forall score ensures Level(SortedByScore(s), score) == Level(s, score) {
        InsertLevel(s[0], t, score);
        LevelAhead(s[0], t, score);
      }
    }
  }

  lemma {:induction false} LevelHolds<T>(s: seq<Scored<T>>, e: Scored<T>)
    ensures e in Level(s, e.score) <==> e in s
  {
    if s != [] {
      LevelHolds(s[1..], e);
    }
  }

  lemma FirstOfLevel<T>(s: seq<Scored<T>>)
    requires s != []
    ensures Level(s, s[0].score) == [s[0]] + Level(s[1..], s[0].score)
    ensures forall score :: score != s[0].score ==> Level(s[1..], score) == Level(s, score)
  {
  }

  lemma TopScore<T>(s: seq<Scored<T>>, e: Scored<T>)
    requires Descending(s) && e in s
    ensures e.score <= s[0].score
  {
  }

  lemma SameFirst<T>(s: seq<Scored<T>>, t: seq<Scored<T>>)
    requires Descending(s) && Descending(t) && s != []
    requires forall score :: Level(s, score) == Level(t, score)
    ensures t != [] && s[0] == t[0]
  {
    LevelHolds(s, s[0]);
    LevelHolds(t, s[0]);
    TopScore(t, s[0]);
    LevelHolds(t, t[0]);
    LevelHolds(s, t[0]);
    TopScore(s, t[0]);
    var score := s[0].score;
    assert Level(s, score)[0] == s[0] && Level(t, score)[0] == t[0];
  }

  /** Order, entries and stability together determine the list. */
  lemma {:induction false} SortingIsDetermined<T>(s: seq<Scored<T>>, t: seq<Scored<T>>)
    requires Descending(s) && Descending(t)
    requires forall score :: Level(s, score) == Level(t, score)
    ensures s == t
  {
    if s == [] {
      if t != [] {
        SameFirst(t, s);
      }
    } else {
      SameFirst(s, t);
      FirstOfLevel(s);
      FirstOfLevel(t);
      forall score ensures Level(s[1..], score) == Level(t[1..], score) {
        if score == s[0].score {
          assert Level(s[1..], score) == Level(s, score)[1..];
          assert Level(t[1..], score) == Level(t, score)[1..];
        }
      }
      SortingIsDetermined(s[1..], t[1..]);
    }
  }

  ghost predicate DistinctItems<T>(s: seq<Scored<T>>) {
    forall i, j :: 0 <= i < j < |s| ==> s[i].item != s[j].item
  }

  lemma {:induction false} InsertDistinct<T>(x: Scored<T>, s: seq<Scored<T>>)
    requires DistinctItems(s) && forall e :: e in s ==> e.item != x.item
    ensures DistinctItems(Insert(x, s))
    ensures forall e :: e in Insert(x, s) <==> e == x || e in s
  {
    if !(s == [] || s[0].score <= x.score) {
      var tail := Insert(x, s[1..]);
      InsertDistinct(x, s[1..]);
      assert s == [s[0]] + s[1..];
      assert forall j :: 0 <= j < |tail| ==> tail[j] in tail;
    }
  }

  lemma {:induction false} SortedDistinct<T>(s: seq<Scored<T>>)
    requires DistinctItems(s)
    ensures DistinctItems(SortedByScore(s))
    ensures forall e :: e in SortedByScore(s) <==> e in s
  {
    if s != [] {
      SortedDistinct(s[1..]);
      InsertDistinct(s[0], SortedByScore(s[1..]));
    }
  }

  lemma SortedMember<T>(s: seq<Scored<T>>, e: Scored<T>)
    ensures e in SortedByScore(s) <==> e in s
  {
    SortingIsStable(s);
    assert e in SortedByScore(s) <==> e in multiset(SortedByScore(s));
    assert e in s <==> e in multiset(s);
  }
}
