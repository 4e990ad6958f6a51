/** Durable user facts: later values replace earlier ones, and only the newest `limit` stay. */
module UserFacts {
  import opened Wrappers
  import opened OrderedDict
  import Lru = LruStore

  datatype Fact = Fact(key: string, value: string)

  /** `d[k] = v` on a plain dict: a key already there keeps its place. */
  function PutInPlace(d: Dict<string, string>, k: string, v: string): Dict<string, string> {
    Dict(if k in d.items then d.order else d.order + [k], d.items[k := v])
  }

  /** `{fact.key: fact.value for fact in facts}` */
  function AsDict(facts: seq<Fact>): Dict<string, string> {
    if facts == [] then Empty()
    else
      var last := facts[|facts| - 1];
      PutInPlace(AsDict(facts[..|facts| - 1]), last.key, last.value)
  }

  function AsFacts(d: Dict<string, string>): seq<Fact> {
    seq(|d.order|, i requires 0 <= i < |d.order| =>
      Fact(d.order[i], if d.order[i] in d.items then d.items[d.order[i]] else ""))
  }

  predicate Usable(f: Fact) {
    f.key != "" && f.value != ""
  }

  /** The dictionary after a batch: each usable fact goes to the end, replacing an earlier value. */
  function Folded(d: Dict<string, string>, batch: seq<Fact>): Dict<string, string> {
    if batch == [] then d
    else
      var before, f := Folded(d, batch[..|batch| - 1]), batch[|batch| - 1];
      if Usable(f) then PutLast(before, f.key, f.value) else before
  }

  /** The last `limit` items; `items[-0:]` is all of them. */
  function Kept(d: Dict<string, string>, limit: nat): Dict<string, string> {
    if limit == 0 then d else Trim(d, limit)
  }

  function Merged(facts: seq<Fact>, incoming: seq<Fact>, limit: nat): seq<Fact> {
    AsFacts(Kept(Folded(AsDict(facts), incoming), limit))
  }

  /** `UserContext.merged_with` */
  method MergedWith(facts: seq<Fact>, incoming: seq<Fact>, limit: nat) returns (merged: seq<Fact>)
    ensures merged == Merged(facts, incoming, limit)
  {
    var combined: Dict<string, string> := Empty();
    for i := 0 to |facts|
      invariant combined == AsDict(facts[..i])
    {
      combined := PutInPlace(combined, facts[i].key, facts[i].value);
      assert facts[..i + 1][..i] == facts[..i];
    }
    assert facts[..|facts|] == facts;
    for i := 0 to |incoming|
      invariant combined == Folded(AsDict(facts), incoming[..i])
    {
      var fact := incoming[i];
      if fact.key != "" && fact.value != "" {
        combined := Without(combined, fact.key);
        combined := Dict(combined.order + [fact.key], combined.items[fact.key := fact.value]);
      }
      assert incoming[..i + 1][..i] == incoming[..i];
    }
    assert incoming[..|incoming|] == incoming;
    merged := AsFacts(Kept(combined, limit));
  }

  ghost predicate DistinctKeys(facts: seq<Fact>) {
    forall i, j :: 0 <= i < j < |facts| ==> facts[i].key != facts[j].key
  }

  /** `d` lists the facts in order. */
  ghost predicate Lists(d: Dict<string, string>, facts: seq<Fact>) {
    && Valid(d) && |d.order| == |facts|
    && forall i :: 0 <= i < |facts| ==> d.order[i] == facts[i].key && d.items[d.order[i]] == facts[i].value
  }

  lemma ListsOneMore(d: Dict<string, string>, facts: seq<Fact>, last: Fact)
    requires Lists(d, facts) && forall i :: 0 <= i < |facts| ==> facts[i].key != last.key
    ensures Lists(PutInPlace(d, last.key, last.value), facts + [last])
  {
    assert last.key !in d.order;
  }

  lemma {:induction false} AsDictOf(facts: seq<Fact>)
    requires DistinctKeys(facts)
    ensures Lists(AsDict(facts), facts)
  {
    if facts != [] {
      var before, last := facts[..|facts| - 1], facts[|facts| - 1];
      AsDictOf(before);
      ListsOneMore(AsDict(before), before, last);
      assert facts == before + [last];
    }
  }

  /** A valid dictionary survives being stored as a tuple of facts. */
  lemma RoundTrip(d: Dict<string, string>)
    requires Valid(d)
    ensures DistinctKeys(AsFacts(d)) && AsDict(AsFacts(d)) == d
  {
    var facts := AsFacts(d);
    ListsItsFacts(d);
    AsDictOf(facts);
    SameDict(d, AsDict(facts), facts);
  }

  lemma ListsItsFacts(d: Dict<string, string>)
    requires Valid(d)
    ensures Lists(d, AsFacts(d)) && DistinctKeys(AsFacts(d))
  {
    assert forall i :: 0 <= i < |d.order| ==> d.order[i] in d.order;
  }

  lemma SameDict(d: Dict<string, string>, e: Dict<string, string>, facts: seq<Fact>)
    requires Lists(d, facts) && Lists(e, facts)
    ensures d == e
  {
    assert e.order == d.order;
    forall k | k in d.items ensures k in e.items && e.items[k] == d.items[k] {
      var i :| 0 <= i < |d.order| && d.order[i] == k;
    }
    assert e.items == d.items;
  }

  lemma {:induction false} FoldedValid(d: Dict<string, string>, batch: seq<Fact>)
    requires Valid(d)
    ensures Valid(Folded(d, batch))
  {
    if batch != [] {
      var before, f := batch[..|batch| - 1], batch[|batch| - 1];
      FoldedValid(d, before);
      PutLastValid(Folded(d, before), f.key, f.value);
    }
  }

  lemma {:induction false} TrimThenFold(d: Dict<string, string>, batch: seq<Fact>, limit: nat)
    requires Valid(d) && limit > 0
    ensures Trim(Folded(Trim(d, limit), batch), limit) == Trim(Folded(d, batch), limit)
  {
    TrimValid(d, limit);
    if batch != [] {
      var before, f := batch[..|batch| - 1], batch[|batch| - 1];
      TrimThenFold(d, before, limit);
      var x, y := Folded(Trim(d, limit), before), Folded(d, before);
      FoldedValid(Trim(d, limit), before);
      FoldedValid(d, before);
      if Usable(f) {
        TrimThenPut(x, limit, f.key, f.value);
        TrimThenPut(y, limit, f.key, f.value);
      }
    }
  }

  lemma {:induction false} FoldedConcat(d: Dict<string, string>, a: seq<Fact>, b: seq<Fact>)
    ensures Folded(Folded(d, a), b) == Folded(d, a + b)
  {
    if b == [] {
      assert a + b == a;
    } else {
      FoldedConcat(d, a, b[..|b| - 1]);
      assert (a + b)[..|a + b| - 1] == a + b[..|b| - 1];
    }
  }

  /** Merging composes: truncating between two batches gives exactly what merging both at once gives. */
  lemma MergingComposes(facts: seq<Fact>, a: seq<Fact>, b: seq<Fact>, limit: nat)
    requires DistinctKeys(facts)
    ensures Merged(Merged(facts, a, limit), b, limit) == Merged(facts, a + b, limit)
    ensures DistinctKeys(Merged(facts, a, limit))
    ensures limit > 0 ==> |Merged(facts, a, limit)| <= limit
  {
    var d := AsDict(facts);
    AsDictOf(facts);
    var x := Folded(d, a);
    FoldedValid(d, a);
    TrimValid(x, limit);
    RoundTrip(Kept(x, limit));
    FoldedConcat(d, a, b);
    if limit > 0 {
      TrimThenFold(x, b, limit);
    }
  }

  // --------------------------------------------------------------- survivors
  // Merging is a history of writes to the bounded table, so the retention
  // theorems of that table say which facts are kept.

  function Writes(batch: seq<Fact>): seq<Lru.Op<string, string>> {
    if batch == [] then []
    else
      var before, f := Writes(batch[..|batch| - 1]), batch[|batch| - 1];
      if Usable(f) then before + [Lru.Set(f.key, Lru.Slot(f.value, None))] else before
  }

  function Slots(d: Dict<string, string>): Lru.Table<string, string> {
    MapItems(d, v => Lru.Slot(v, None))
  }

  lemma MergeStep(d: Dict<string, string>, limit: nat, f: Fact)
    requires Valid(d) && limit > 0
    ensures Lru.Write(Slots(Trim(d, limit)), limit, f.key, Lru.Slot(f.value, None))
              == Slots(Trim(PutLast(d, f.key, f.value), limit))
  {
    var t, slot := Trim(d, limit), (v: string) => Lru.Slot(v, None);
    TrimValid(d, limit);
    PutLastValid(t, f.key, f.value);
    MapPutLast(t, slot, f.key, f.value);
    MapTrim(PutLast(t, f.key, f.value), slot, limit);
    TrimThenPut(d, limit, f.key, f.value);
  }

  lemma {:induction false} MergeIsAHistory(batch: seq<Fact>, limit: nat)
    requires limit > 0
    ensures Lru.Run(limit, Writes(batch)) == Slots(Trim(Folded(Empty(), batch), limit))
    ensures Lru.Undisturbed(Writes(batch), 0.0)
  {
    if batch == [] {
      assert Slots(Empty()).items == map[];
    } else {
      var before, f := batch[..|batch| - 1], batch[|batch| - 1];
      MergeIsAHistory(before, limit);
      FoldedValid(Empty(), before);
      if Usable(f) {
        assert Writes(batch)[..|Writes(batch)| - 1] == Writes(before);
        MergeStep(Folded(Empty(), before), limit, f);
      }
    }
  }

  /** The latest usable value given for a key. */
  function Latest(batch: seq<Fact>, key: string): Option<string> {
    if batch == [] then None
    else
      var f := batch[|batch| - 1];
      if f.key == key && key != "" && f.value != "" then Some(f.value) else Latest(batch[..|batch| - 1], key)
  }

  /** The distinct other keys given a usable value after the last one for `key`. */
  function WrittenAfter(batch: seq<Fact>, key: string): set<string> {
    if batch == [] then {}
    else
      var rest, f := WrittenAfter(batch[..|batch| - 1], key), batch[|batch| - 1];
      if f.key == "" || f.value == "" then rest else if f.key == key then {} else rest + {f.key}
  }

  lemma {:induction false} WritesSay(batch: seq<Fact>, key: string, limit: nat)
    ensures Lru.UsedSince(limit, Writes(batch), key) == WrittenAfter(batch, key)
  {
    if batch != [] {
      WritesSay(batch[..|batch| - 1], key, limit);
      WritesGrow(batch);
    }
  }

  lemma {:induction false} WritesKeep(batch: seq<Fact>, key: string)
    ensures Lru.Written(Writes(batch), key) ==
            match Latest(batch, key) case None => None case Some(v) => Some(Lru.Slot(v, None))
  {
    if batch != [] {
      WritesKeep(batch[..|batch| - 1], key);
      WritesGrow(batch);
    }
  }

  lemma WritesGrow(batch: seq<Fact>)
    requires batch != []
    ensures var f, before := batch[|batch| - 1], Writes(batch[..|batch| - 1]);
            if Usable(f) then Writes(batch) != [] && Writes(batch)[..|Writes(batch)| - 1] == before
                              && Writes(batch)[|Writes(batch)| - 1] == Lru.Set(f.key, Lru.Slot(f.value, None))
            else Writes(batch) == before
  {
  }

  lemma ListedFacts(d: Dict<string, string>, key: string, value: string)
    requires Valid(d)
    ensures Fact(key, value) in AsFacts(d) <==> key in d.items && d.items[key] == value
  {
    if key in d.items {
      var i :| 0 <= i < |d.order| && d.order[i] == key;
      assert AsFacts(d)[i] == Fact(key, d.items[key]);
    }
  }

  /** The facts kept from any sequence of observations are exactly the `limit` most
      recently written: a key is kept, with its latest value, if and only if fewer
      than `limit` other keys were written after it. */
  lemma NewestSurvive(batch: seq<Fact>, limit: nat, key: string, value: string)
    requires limit > 0
    ensures Fact(key, value) in Merged([], batch, limit) <==>
              Latest(batch, key) == Some(value) && |WrittenAfter(batch, key)| < limit
  {
    var d := Trim(Folded(Empty(), batch), limit);
    FoldedValid(Empty(), batch);
    TrimValid(Folded(Empty(), batch), limit);
    MergeIsAHistory(batch, limit);
    WritesSay(batch, key, limit);
    WritesKeep(batch, key);
    var facts := AsFacts(d);
    assert facts == Merged([], batch, limit);
    if Latest(batch, key).Some? {
      Lru.ExactEviction(limit, Writes(batch), key, 0.0);
    }
    Lru.AgreesAlways(limit, Writes(batch), key, 0.0);
    ListedFacts(d, key, value);
  }
}
