/** Python's `OrderedDict`: a mapping together with the order of its keys, oldest first.

    The source keeps every bounded table in one, and only ever inserts at the
    end, moves a key to the end, removes a key, or pops the front.
 */
module OrderedDict {
  import opened Wrappers

  datatype Dict<K, V> = Dict(order: seq<K>, items: map<K, V>)

  function Empty<K, V>(): Dict<K, V> {
    Dict([], map[])
  }

  ghost predicate Distinct<K>(ks: seq<K>) {
    forall i, j :: 0 <= i < j < |ks| ==> ks[i] != ks[j]
  }

  /** The order lists each key of the mapping once. */
  ghost predicate Valid<K, V>(d: Dict<K, V>) {
    && Distinct(d.order)
    && (forall k :: k in d.order ==> k in d.items)
    && (forall k :: k in d.items ==> k in d.order)
  }

  function Size<K, V>(d: Dict<K, V>): nat {
    |d.order|
  }

  function Find<K(==), V>(d: Dict<K, V>, k: K): Option<V> {
    if k in d.items then Some(d.items[k]) else None
  }

  /** Position of `k`, or the length when it is absent. */
  function Position<K(==)>(ks: seq<K>, k: K): (i: nat)
    ensures i <= |ks|
    ensures i < |ks| ==> ks[i] == k
    ensures k !in ks[..i]
  {
    if ks == [] || ks[0] == k then 0
    else
      var i := 1 + Position(ks[1..], k);
      assert ks[..i] == [ks[0]] + ks[1..][..i - 1];
      i
  }

  function Drop<K(==)>(ks: seq<K>, k: K): seq<K> {
    var i := Position(ks, k);
    if i < |ks| then ks[..i] + ks[i + 1..] else ks
  }

  /** `d.pop(k, None)` */
  function Without<K(==), V>(d: Dict<K, V>, k: K): Dict<K, V> {
    Dict(Drop(d.order, k), d.items - {k})
  }

  /** `d[k] = v; d.move_to_end(k)` */
  function PutLast<K(==), V>(d: Dict<K, V>, k: K, v: V): Dict<K, V> {
    Dict(Drop(d.order, k) + [k], d.items[k := v])
  }

  /** `d.popitem(last=False)` */
  function PopFirst<K(==), V>(d: Dict<K, V>): Dict<K, V>
    requires Size(d) > 0
  {
    Dict(d.order[1..], d.items - {d.order[0]})
  }

  /** `while len(d) > max: d.popitem(last=False)` */
  function Trim<K(==), V>(d: Dict<K, V>, max: nat): Dict<K, V>
    decreases Size(d)
  {
    if Size(d) > max then Trim(PopFirst(d), max) else d
  }

  lemma PositionAt<K>(ks: seq<K>, i: nat)
    requires Distinct(ks) && i < |ks|
    ensures Position(ks, ks[i]) == i
  {
    var p := Position(ks, ks[i]);
    assert ks[i] in ks[..p] || p <= i;
  }

  lemma DropEffect<K>(ks: seq<K>, k: K)
    requires Distinct(ks)
    ensures Distinct(Drop(ks, k)) && k !in Drop(ks, k)
    ensures forall x :: x in Drop(ks, k) <==> x in ks && x != k
    ensures |Drop(ks, k)| == if k in ks then |ks| - 1 else |ks|
  {
    var i, r := Position(ks, k), Drop(ks, k);
    assert forall j :: 0 <= j < |r| ==> r[j] == if j < i then ks[j] else ks[j + 1];
    forall x | x in ks && x != k ensures x in r {
      var j :| 0 <= j < |ks| && ks[j] == x;
      assert r[if j < i then j else j - 1] == x;
    }
  }

  lemma WithoutValid<K, V>(d: Dict<K, V>, k: K)
    requires Valid(d)
    ensures Valid(Without(d, k))
    ensures Size(Without(d, k)) == if k in d.items then Size(d) - 1 else Size(d)
  {
    DropEffect(d.order, k);
  }

  lemma PutLastValid<K, V>(d: Dict<K, V>, k: K, v: V)
    requires Valid(d)
    ensures Valid(PutLast(d, k, v))
    ensures Size(PutLast(d, k, v)) == if k in d.items then Size(d) else Size(d) + 1
  {
    DropEffect(d.order, k);
  }

  lemma PopFirstValid<K, V>(d: Dict<K, V>)
    requires Valid(d) && Size(d) > 0
    ensures Valid(PopFirst(d))
  {
    assert forall j :: 0 <= j < |d.order| - 1 ==> d.order[1..][j] == d.order[j + 1];
    forall k ensures k in d.order[1..] <==> k in d.items && k != d.order[0] {
      if k in d.items && k != d.order[0] {
        var j :| 0 <= j < |d.order| && d.order[j] == k;
        assert d.order[1..][j - 1] == k;
      }
    }
  }

  lemma {:induction false} TrimValid<K, V>(d: Dict<K, V>, max: nat)
    requires Valid(d)
    ensures Valid(Trim(d, max)) && Size(Trim(d, max)) == if Size(d) > max then max else Size(d)
    ensures forall k :: k in Trim(d, max).items ==> k in d.items && Trim(d, max).items[k] == d.items[k]
    decreases Size(d)
  {
    if Size(d) > max {
      PopFirstValid(d);
      TrimValid(PopFirst(d), max);
    }
  }

  lemma PutLastNew<K, V>(d: Dict<K, V>, k: K, v: V)
    requires k !in d.order
    ensures PutLast(d, k, v).order == d.order + [k]
  {
  }

  /** Putting the last key again changes nothing. */
  lemma PutLastAgain<K, V>(d: Dict<K, V>, k: K, v: V)
    requires Valid(d) && d.order != [] && d.order[|d.order| - 1] == k && d.items[k] == v
    ensures PutLast(d, k, v) == d
  {
    var n := |d.order| - 1;
    PositionAt(d.order, n);
    assert Drop(d.order, k) == d.order[..n] && d.order == d.order[..n] + [k];
    assert d.items[k := v] == d.items;
  }

  /** `after` holds what `before` did, without the keys in `gone`. */
  ghost predicate Lost<K, V>(before: Dict<K, V>, after: Dict<K, V>, gone: set<K>) {
    && Valid(after)
    && (forall k :: k in after.items ==> k in before.items && after.items[k] == before.items[k] && k !in gone)
    && (forall k :: k in before.items && k !in gone ==> k in after.items)
  }

  lemma LostThenLost<K, V>(a: Dict<K, V>, b: Dict<K, V>, c: Dict<K, V>, g: set<K>, h: set<K>)
    requires Lost(a, b, g) && Lost(b, c, h)
    ensures Lost(a, c, g + h)
  {
  }

  lemma LostWithout<K, V>(d: Dict<K, V>, k: K)
    requires Valid(d)
    ensures Lost(d, Without(d, k), {k})
  {
    WithoutValid(d, k);
  }

  lemma {:induction false} KeyCount<K>(ks: seq<K>)
    requires Distinct(ks)
    ensures |set k | k in ks| == |ks|
  {
    if ks != [] {
      var init := ks[..|ks| - 1];
      KeyCount(init);
      assert (set k | k in ks) == (set k | k in init) + {ks[|ks| - 1]};
    }
  }

  lemma {:induction false} SubsetSize<T>(a: set<T>, b: set<T>)
    requires a <= b
    ensures |a| <= |b|
  {
    if a != {} {
      var x :| x in a;
      SubsetSize(a - {x}, b - {x});
    }
  }

  // ---------------------------------------------------------------- truncation

  lemma SameDict<K, V>(a: Dict<K, V>, b: Dict<K, V>)
    requires Valid(a) && Valid(b) && a.order == b.order
    requires forall k :: k in a.items && k in b.items ==> a.items[k] == b.items[k]
    ensures a == b
  {
    assert a.items.Keys == b.items.Keys;
  }

  function Last<T>(s: seq<T>, n: nat): seq<T> {
    if |s| > n then s[|s| - n..] else s
  }

  lemma {:induction false} TrimOrder<K, V>(d: Dict<K, V>, max: nat)
    requires Valid(d)
    ensures Trim(d, max).order == Last(d.order, max)
    decreases Size(d)
  {
    if Size(d) > max {
      PopFirstValid(d);
      TrimOrder(PopFirst(d), max);
    }
  }

  /** What was put last survives any trimming but to nothing. */
  lemma NewestStays<K, V>(d: Dict<K, V>, max: nat, k: K, v: V)
    requires Valid(d) && max > 0
    ensures k in Trim(PutLast(d, k, v), max).items && Trim(PutLast(d, k, v), max).items[k] == v
  {
    var put := PutLast(d, k, v);
    PutLastValid(d, k, v);
    TrimValid(put, max);
    TrimOrder(put, max);
    assert put.order[|put.order| - 1] == k;
    var kept := Trim(put, max).order;
    assert kept[|kept| - 1] == k;
  }

  /** Cutting one element and then a prefix, or the prefix and then the element. */
  lemma CutTail<T>(s: seq<T>, n: nat, m: nat)
    requires n <= m < |s|
    ensures s[n..][..m - n] + s[n..][m - n + 1..] == (s[..m] + s[m + 1..])[n..]
  {
  }

  lemma CutHead<T>(s: seq<T>, n: nat, m: nat)
    requires m < n < |s|
    ensures (s[..m] + s[m + 1..])[n..] == s[n + 1..]
  {
  }

  lemma PositionInTail<K>(ks: seq<K>, n: nat, k: K)
    requires Distinct(ks) && n < |ks|
    ensures k in ks[n..] ==> n <= Position(ks, k) < |ks| && Position(ks[n..], k) == Position(ks, k) - n
    ensures k !in ks[n..] ==> Position(ks[n..], k) == |ks| - n && (k in ks ==> Position(ks, k) < n)
  {
    var q, p := Position(ks[n..], k), Position(ks, k);
    if k in ks[n..] {
      assert ks[n + q] == k;
      PositionAt(ks, n + q);
    } else {
      assert forall j :: n <= j < |ks| ==> ks[j] == ks[n..][j - n];
    }
  }

  /** What is left of the newest `limit` keys, `k` apart, when `k` is written again. */
  lemma TailWithout<K>(ks: seq<K>, n: nat, k: K)
    requires Distinct(ks) && n < |ks|
    ensures k in ks[n..] ==> Drop(ks[n..], k) == Drop(ks, k)[n..] && |Drop(ks, k)| == |ks| - 1
    ensures k !in ks[n..] ==> Drop(ks[n..], k) == ks[n..]
    ensures k !in ks[n..] && k in ks ==> Drop(ks, k)[n..] == ks[n + 1..] && |Drop(ks, k)| == |ks| - 1
    ensures k !in ks ==> Drop(ks, k) == ks
  {
    var p := Position(ks, k);
    PositionInTail(ks, n, k);
    if k in ks[n..] {
      CutTail(ks, n, p);
    } else if k in ks {
      CutHead(ks, n, p);
    }
  }

  lemma LastAppended<T>(s: seq<T>, n: nat, limit: nat, x: T)
    requires n <= |s| && limit == |s| - n + 1
    ensures Last(s + [x], limit) == s[n..] + [x]
  {
    assert (s + [x])[n..] == s[n..] + [x];
  }

  /** `k` is among the newest: both ways keep the other ones. */
  lemma LastWithNewest<K>(ks: seq<K>, n: nat, limit: nat, k: K)
    requires Distinct(ks) && n < |ks| && limit == |ks| - n && k in ks[n..]
    ensures Last(Drop(ks[n..], k) + [k], limit) == Last(Drop(ks, k) + [k], limit)
  {
    TailWithout(ks, n, k);
    LastAppended(Drop(ks, k), n, limit, k);
  }

  /** `k` is older, or new: both ways keep the newest but one. */
  lemma LastWithOlder<K>(ks: seq<K>, n: nat, limit: nat, k: K)
    requires Distinct(ks) && n < |ks| && limit == |ks| - n && k !in ks[n..]
    ensures Last(Drop(ks[n..], k) + [k], limit) == Last(Drop(ks, k) + [k], limit)
  {
    var tail := ks[n..];
    TailWithout(ks, n, k);
    LastAppended(tail, 1, limit, k);
    assert tail[1..] == ks[n + 1..];
    if k in ks {
      LastAppended(Drop(ks, k), n, limit, k);
    } else {
      LastAppended(ks, n + 1, limit, k);
    }
  }

  lemma LastIs<T>(s: seq<T>, n: nat, limit: nat)
    requires n < |s| && limit == |s| - n
    ensures Last(s, limit) == s[n..]
  {
  }

  /** Truncating before a key is moved to the end changes nothing that survives truncating after it. */
  lemma LastKeys<K>(ks: seq<K>, limit: nat, k: K)
    requires Distinct(ks) && limit > 0
    ensures Last(Drop(Last(ks, limit), k) + [k], limit) == Last(Drop(ks, k) + [k], limit)
  {
    if |ks| > limit {
      var n := |ks| - limit;
      LastIs(ks, n, limit);
      if k in ks[n..] {
        LastWithNewest(ks, n, limit, k);
      } else {
        LastWithOlder(ks, n, limit, k);
      }
    }
  }

  /** A write and a truncation: the order it leaves, and values from before or the one written. */
  lemma PutTrimmed<K, V>(d: Dict<K, V>, limit: nat, k: K, v: V)
    requires Valid(d)
    ensures var t := Trim(PutLast(d, k, v), limit);
            && Valid(t) && t.order == Last(Drop(d.order, k) + [k], limit)
            && forall x :: x in t.items ==> if x == k then t.items[x] == v else x in d.items && t.items[x] == d.items[x]
  {
    PutLastValid(d, k, v);
    TrimValid(PutLast(d, k, v), limit);
    TrimOrder(PutLast(d, k, v), limit);
  }

  lemma TrimThenPut<K, V>(d: Dict<K, V>, limit: nat, k: K, v: V)
    requires Valid(d) && limit > 0
    ensures Trim(PutLast(Trim(d, limit), k, v), limit) == Trim(PutLast(d, k, v), limit)
  {
    var t := Trim(d, limit);
    TrimValid(d, limit);
    TrimOrder(d, limit);
    PutTrimmed(d, limit, k, v);
    PutTrimmed(t, limit, k, v);
    LastKeys(d.order, limit, k);
    SameDict(Trim(PutLast(t, k, v), limit), Trim(PutLast(d, k, v), limit));
  }

  function MapItems<K(==), V, U>(d: Dict<K, V>, f: V -> U): Dict<K, U> {
    Dict(d.order, map k | k in d.items :: f(d.items[k]))
  }

  lemma MapPutLast<K, V, U>(d: Dict<K, V>, f: V -> U, k: K, v: V)
    ensures MapItems(PutLast(d, k, v), f) == PutLast(MapItems(d, f), k, f(v))
  {
  }

  lemma MapPopFirst<K, V, U>(d: Dict<K, V>, f: V -> U)
    requires Size(d) > 0
    ensures MapItems(PopFirst(d), f) == PopFirst(MapItems(d, f))
  {
    var a, b := MapItems(PopFirst(d), f).items, PopFirst(MapItems(d, f)).items;
    assert a.Keys == b.Keys;
  }

  lemma {:induction false} MapTrim<K, V, U>(d: Dict<K, V>, f: V -> U, max: nat)
    ensures Trim(MapItems(d, f), max) == MapItems(Trim(d, max), f)
    decreases Size(d)
  {
    if Size(d) > max {
      MapPopFirst(d, f);
      MapTrim(PopFirst(d), f, max);
    }
  }
}
