/** The LRU/TTL table behind both in-process caches, and what it retains.

    `AsyncTTLCache` and `InMemoryCacheBackend` update an `OrderedDict` with the
    same four moves. They are defined here once, on values; the two classes are
    proved to perform them, and the retention theorem is proved about them.
 */
module LruStore {
  import opened Wrappers
  import opened OrderedDict

  /** A stored value; no deadline means it never expires. */
  datatype Slot<V> = Slot(value: V, deadline: Option<real>)

  type Table<K, V> = Dict<K, Slot<V>>

  predicate Expired<V>(s: Slot<V>, now: real) {
    s.deadline.Some? && s.deadline.value <= now
  }

  /** What a read at `now` returns. */
  function Peek<K(==), V>(d: Table<K, V>, k: K, now: real): Option<V> {
    if k in d.items && !Expired(d.items[k], now) then Some(d.items[k].value) else None
  }

  /** A read drops an expired entry on the way past and makes a live one the most recent. */
  function Read<K(==), V>(d: Table<K, V>, k: K, now: real): Table<K, V> {
    if k !in d.items then d
    else if Expired(d.items[k], now) then Without(d, k)
    else PutLast(d, k, d.items[k])
  }

  /** A write makes the entry the most recent and evicts the oldest beyond `max`. */
  function Write<K(==), V>(d: Table<K, V>, max: nat, k: K, s: Slot<V>): Table<K, V> {
    Trim(PutLast(d, k, s), max)
  }

  /** A read adds nothing. */
  lemma ReadEffect<K, V>(d: Table<K, V>, k: K, now: real)
    requires Valid(d)
    ensures Valid(Read(d, k, now)) && Size(Read(d, k, now)) <= Size(d)
    ensures forall x :: x in Read(d, k, now).items ==> x in d.items && Read(d, k, now).items[x] == d.items[x]
    ensures forall x :: x in d.items && (x != k || !Expired(d.items[k], now)) ==> x in Read(d, k, now).items
  {
    WithoutValid(d, k);
    if k in d.items {
      PutLastValid(d, k, d.items[k]);
    }
  }

  /** A write adds only what it writes. */
  lemma WriteEffect<K, V>(d: Table<K, V>, max: nat, k: K, s: Slot<V>)
    requires Valid(d)
    ensures Valid(Write(d, max, k, s)) && Size(Write(d, max, k, s)) <= max
    ensures forall x :: x in Write(d, max, k, s).items ==>
              if x == k then Write(d, max, k, s).items[x] == s
              else x in d.items && Write(d, max, k, s).items[x] == d.items[x]
  {
    PutLastValid(d, k, s);
    TrimValid(PutLast(d, k, s), max);
  }

  /** What is written is there, unless there is no room for anything. */
  lemma WrittenStays<K, V>(d: Table<K, V>, max: nat, k: K, s: Slot<V>)
    requires Valid(d) && max > 0
    ensures k in Write(d, max, k, s).items && Write(d, max, k, s).items[k] == s
  {
    NewestStays(d, max, k, s);
  }

  lemma ReadLoses<K, V>(d: Table<K, V>, k: K, now: real)
    requires Valid(d)
    ensures Peek(d, k, now) == None ==> Lost(d, Read(d, k, now), {k})
    ensures Peek(d, k, now).Some? ==> Lost(d, Read(d, k, now), {})
    ensures Lost(d, Without(Read(d, k, now), k), {k})
  {
    ReadEffect(d, k, now);
    WithoutValid(Read(d, k, now), k);
    WithoutValid(d, k);
  }

  // -------------------------------------------------------------- histories

  datatype Op<K, V> =
    | Set(key: K, slot: Slot<V>)
    | Get(key: K, now: real)
    | Delete(key: K)
    | Clear

  function Apply<K(==), V>(d: Table<K, V>, max: nat, op: Op<K, V>): Table<K, V> {
    match op
    case Set(k, s) => Write(d, max, k, s)
    case Get(k, now) => Read(d, k, now)
    case Delete(k) => Without(d, k)
    case Clear => Empty()
  }

  /** The table after a history of operations on an empty one. */
  function Run<K(==), V>(max: nat, ops: seq<Op<K, V>>): Table<K, V> {
    if ops == [] then Empty() else Apply(Run(max, ops[..|ops| - 1]), max, ops[|ops| - 1])
  }

  // What the history alone says, with no mention of order or eviction.

  /** The last value set for `k`, unless it was deleted or cleared since. */
  function Written<K(==), V>(ops: seq<Op<K, V>>, k: K): Option<Slot<V>> {
    if ops == [] then None
    else
      var before := Written(ops[..|ops| - 1], k);
      match ops[|ops| - 1]
      case Set(j, s) => if j == k then Some(s) else before
      case Get(_, _) => before
      case Delete(j) => if j == k then None else before
      case Clear => None
  }

  /** The key an operation uses: one it sets, or one it finds. */
  function Used<K(==), V>(d: Table<K, V>, op: Op<K, V>): Option<K> {
    match op
    case Set(j, _) => Some(j)
    case Get(j, now) => if Peek(d, j, now).Some? then Some(j) else None
    case _ => None
  }

  function Since<K(==)>(before: set<K>, used: Option<K>, k: K): set<K> {
    match used
    case None => before
    case Some(j) => if j == k then {} else before + {j}
  }

  /** The distinct other keys used since `k` was last used. */
  function UsedSince<K(==), V>(max: nat, ops: seq<Op<K, V>>, k: K): set<K> {
    if ops == [] then {}
    else
      var before := ops[..|ops| - 1];
      Since(UsedSince(max, before, k), Used(Run(max, before), ops[|ops| - 1]), k)
  }

  /** Every read in the history happened no later than `now`. */
  ghost predicate Until<K, V>(ops: seq<Op<K, V>>, now: real) {
    forall i :: 0 <= i < |ops| && ops[i].Get? ==> ops[i].now <= now
  }

  // -------------------------------------------------------------- retention

  /** Everything behind `k` in the order is in `since`. */
  ghost predicate Behind<K>(ks: seq<K>, k: K, since: set<K>) {
    forall i, j :: 0 <= i < j < |ks| && ks[i] == k ==> ks[j] in since
  }

  lemma DropBehind<K>(ks: seq<K>, k: K, x: K, since: set<K>)
    requires Distinct(ks) && Behind(ks, x, since) && x != k
    ensures Behind(Drop(ks, k), x, since)
    ensures Behind(Drop(ks, k) + [k], x, since + {k})
  {
    var p, r := Position(ks, k), Drop(ks, k);
    assert forall j :: 0 <= j < |r| ==> r[j] == ks[if j < p then j else j + 1];
  }

  lemma PutLastBehind<K, V>(d: Table<K, V>, k: K, s: Slot<V>, x: K, since: set<K>)
    requires Valid(d) && Behind(d.order, x, since)
    ensures Behind(PutLast(d, k, s).order, x, Since(since, Some(k), x))
  {
    DropEffect(d.order, k);
    if x != k {
      DropBehind(d.order, k, x, since);
    }
  }

  /** Eviction takes one entry, and only when `max` other keys were used since it was. */
  lemma TrimBehind<K, V>(d: Table<K, V>, max: nat, x: K, since: set<K>)
    requires Valid(d) && Behind(d.order, x, since) && Size(d) <= max + 1
    ensures Behind(Trim(d, max).order, x, since)
    ensures x in d.items && x !in Trim(d, max).items ==> |since| >= max
  {
    if Size(d) > max {
      var rest := d.order[1..];
      PopFirstValid(d);
      assert Trim(d, max) == PopFirst(d);
      assert forall j :: 0 <= j < |rest| ==> rest[j] == d.order[j + 1];
      if d.order[0] == x {
        KeyCount(rest);
        SubsetSize((set k | k in rest), since);
      }
    }
  }

  /** The table agrees with the history on `k`, and knows why it lost `k` if it did. */
  ghost predicate Agrees<K, V>(d: Table<K, V>, max: nat, k: K, written: Option<Slot<V>>, since: set<K>, now: real) {
    && Valid(d)
    && Size(d) <= max
    && Behind(d.order, k, since)
    && (k in d.items ==> written == Some(d.items[k]))
    && (k !in d.items && written.Some? ==> Expired(written.value, now) || |since| >= max)
  }

  lemma SetAgrees<K, V>(d: Table<K, V>, max: nat, j: K, s: Slot<V>, k: K, written: Option<Slot<V>>, since: set<K>,
                        now: real)
    requires Agrees(d, max, k, written, since, now)
    ensures Agrees(Write(d, max, j, s), max, k, if j == k then Some(s) else written, Since(since, Some(j), k), now)
  {
    WriteEffect(d, max, j, s);
    PutLastValid(d, j, s);
    PutLastBehind(d, j, s, k, since);
    TrimBehind(PutLast(d, j, s), max, k, Since(since, Some(j), k));
    SubsetSize(since, since + {j});
  }

  lemma GetAgrees<K, V>(d: Table<K, V>, max: nat, j: K, t: real, k: K, written: Option<Slot<V>>, since: set<K>,
                        now: real)
    requires Agrees(d, max, k, written, since, now) && t <= now
    ensures Agrees(Read(d, j, t), max, k, written, Since(since, Used(d, Get(j, t)), k), now)
  {
    ReadEffect(d, j, t);
    if j in d.items {
      if Expired(d.items[j], t) {
        DeleteAgrees(d, max, j, k, written, since, now);
      } else {
        PutLastBehind(d, j, d.items[j], k, since);
        SubsetSize(since, since + {j});
      }
    }
  }

  lemma DeleteAgrees<K, V>(d: Table<K, V>, max: nat, j: K, k: K, written: Option<Slot<V>>, since: set<K>, now: real)
    requires Agrees(d, max, k, written, since, now)
    ensures Behind(Without(d, j).order, k, since)
    ensures Agrees(Without(d, j), max, k, if j == k then None else written, since, now)
  {
    WithoutValid(d, j);
    DropEffect(d.order, j);
    if j != k {
      DropBehind(d.order, j, k, since);
    }
  }

  lemma {:induction false} AgreesAlways<K, V>(max: nat, ops: seq<Op<K, V>>, k: K, now: real)
    requires Until(ops, now)
    ensures Agrees(Run(max, ops), max, k, Written(ops, k), UsedSince(max, ops, k), now)
  {
    if ops != [] {
      var before := ops[..|ops| - 1];
      AgreesAlways(max, before, k, now);
      var d, written, since := Run(max, before), Written(before, k), UsedSince(max, before, k);
      match ops[|ops| - 1]
      case Set(j, s) => SetAgrees(d, max, j, s, k, written, since, now);
      case Get(j, t) => GetAgrees(d, max, j, t, k, written, since, now);
      case Delete(j) => DeleteAgrees(d, max, j, k, written, since, now);
      case Clear =>
    }
  }

  /** The retention contract, for every history and every key.

      A read returns exactly the last value set for the key, and it misses only
      because nothing is set, the value has expired, or at least `max` other keys
      were used since this one. The table never outgrows its bound.
   */
  lemma Retention<K, V>(max: nat, ops: seq<Op<K, V>>, k: K, now: real)
    requires Until(ops, now)
    ensures Size(Run(max, ops)) <= max
    ensures match Peek(Run(max, ops), k, now)
            case Some(v) =>
              Written(ops, k).Some? && Written(ops, k).value.value == v && !Expired(Written(ops, k).value, now)
            case None => || Written(ops, k) == None
                         || Expired(Written(ops, k).value, now)
                         || |UsedSince(max, ops, k)| >= max
  {
    AgreesAlways(max, ops, k, now);
  }

  // -------------------------------------------------------- exact eviction

  /** Nothing is deleted, and nothing set has expired by `now`. */
  ghost predicate Undisturbed<K, V>(ops: seq<Op<K, V>>, now: real) {
    forall i :: 0 <= i < |ops| ==>
      match ops[i] {
        case Set(_, s) => !Expired(s, now)
        case Get(_, t) => t <= now
        case _ => false
      }
  }

  /** Every key in `since` is still there, behind `k`. */
  ghost predicate Holds<K>(ks: seq<K>, k: K, since: set<K>) {
    k in ks ==> forall y :: y in since ==> Position(ks, k) < Position(ks, y) < |ks|
  }

  /** Where a key that stays goes when `k` is taken out. */
  lemma DropPosition<K>(ks: seq<K>, k: K, i: nat)
    requires Distinct(ks) && i < |ks| && ks[i] != k
    ensures var j := if i < Position(ks, k) then i else i - 1;
            0 <= j < |Drop(ks, k)| && Drop(ks, k)[j] == ks[i]
  {
  }

  lemma PositionAbsent<K>(ks: seq<K>, k: K)
    requires k !in ks
    ensures Position(ks, k) == |ks|
  {
  }

  lemma PutLastPosition<K>(ks: seq<K>, k: K, y: K, r: seq<K>)
    requires Distinct(ks) && r == Drop(ks, k) + [k]
    ensures y == k ==> Position(r, y) == |r| - 1
    ensures y != k && y !in ks ==> Position(r, y) == |r|
    ensures y != k && y in ks ==>
              Position(r, y) == if Position(ks, y) < Position(ks, k) then Position(ks, y) else Position(ks, y) - 1
  {
    DropEffect(ks, k);
    if y == k {
      PositionIs(r, |r| - 1, y);
    } else if y in ks {
      PositionMoved(ks, k, y, r);
    } else {
      PositionAbsent(r, y);
    }
  }

  lemma PositionMoved<K>(ks: seq<K>, k: K, y: K, r: seq<K>)
    requires Distinct(ks) && r == Drop(ks, k) + [k] && Distinct(r) && y != k && y in ks
    ensures Position(r, y) == if Position(ks, y) < Position(ks, k) then Position(ks, y) else Position(ks, y) - 1
  {
    var q := Position(ks, y);
    PositionOf(ks, y);
    DropPosition(ks, k, q);
    PositionIs(r, if q < Position(ks, k) then q else q - 1, y);
  }

  lemma PositionIs<K>(ks: seq<K>, i: nat, k: K)
    requires Distinct(ks) && i < |ks| && ks[i] == k
    ensures Position(ks, k) == i
  {
    PositionAt(ks, i);
  }

  lemma PositionOf<K>(ks: seq<K>, k: K)
    requires k in ks
    ensures Position(ks, k) < |ks| && ks[Position(ks, k)] == k
  {
    assert ks[..|ks|] == ks;
  }

  lemma PutLastHolds<K>(ks: seq<K>, k: K, x: K, since: set<K>)
    requires Distinct(ks) && Holds(ks, x, since)
    ensures Holds(Drop(ks, k) + [k], x, Since(since, Some(k), x))
  {
    var r := Drop(ks, k) + [k];
    DropEffect(ks, k);
    PutLastPosition(ks, k, x, r);
    if x != k && x in r {
      forall y | y in since + {k} ensures Position(r, x) < Position(r, y) < |r| {
        PutLastPosition(ks, k, y, r);
      }
    }
  }

  lemma TrimHolds<K, V>(d: Table<K, V>, max: nat, x: K, since: set<K>)
    requires Valid(d) && Holds(d.order, x, since) && Size(d) <= max + 1
    ensures Holds(Trim(d, max).order, x, since)
  {
    if Size(d) > max {
      var ks, rest := d.order, d.order[1..];
      assert Trim(d, max) == PopFirst(d);
      if x in rest {
        var i := Position(rest, x);
        PositionAt(ks, i + 1);
        forall y | y in since ensures i < Position(rest, y) < |rest| {
          PositionAt(rest, Position(ks, y) - 1);
        }
      }
    }
  }

  lemma HoldsStep<K, V>(max: nat, ops: seq<Op<K, V>>, k: K, now: real)
    requires ops != [] && Undisturbed(ops, now)
    requires var before := ops[..|ops| - 1]; Holds(Run(max, before).order, k, UsedSince(max, before, k))
    ensures Holds(Run(max, ops).order, k, UsedSince(max, ops, k))
  {
    var before, op := ops[..|ops| - 1], ops[|ops| - 1];
    var d, since, j := Run(max, before), UsedSince(max, before, k), op.key;
    AgreesAlways(max, before, j, now);
    WrittenUndisturbed(before, j, now);
    if op.Set? {
      PutLastValid(d, j, op.slot);
      PutLastHolds(d.order, j, k, since);
      TrimHolds(PutLast(d, j, op.slot), max, k, Since(since, Some(j), k));
    } else if j in d.items {
      PutLastHolds(d.order, j, k, since);
    }
  }

  lemma {:induction false} HoldsAlways<K, V>(max: nat, ops: seq<Op<K, V>>, k: K, now: real)
    requires Undisturbed(ops, now)
    ensures Holds(Run(max, ops).order, k, UsedSince(max, ops, k))
  {
    if ops != [] {
      HoldsAlways(max, ops[..|ops| - 1], k, now);
      HoldsStep(max, ops, k, now);
    }
  }

  lemma {:induction false} WrittenUndisturbed<K, V>(ops: seq<Op<K, V>>, k: K, now: real)
    requires Undisturbed(ops, now)
    ensures Written(ops, k).Some? ==> !Expired(Written(ops, k).value, now)
  {
    if ops != [] {
      WrittenUndisturbed(ops[..|ops| - 1], k, now);
    }
  }

  /** Without deletions or expiry the bound is exact: a key set is still there
      if and only if fewer than `max` distinct other keys were used after it. */
  lemma ExactEviction<K, V>(max: nat, ops: seq<Op<K, V>>, k: K, now: real)
    requires Undisturbed(ops, now) && Written(ops, k).Some?
    ensures Peek(Run(max, ops), k, now).Some? <==> |UsedSince(max, ops, k)| < max
  {
    var d, since := Run(max, ops), UsedSince(max, ops, k);
    AgreesAlways(max, ops, k, now);
    HoldsAlways(max, ops, k, now);
    WrittenUndisturbed(ops, k, now);
    if k in d.items {
      var i := Position(d.order, k);
      var rest := d.order[i + 1..];
      KeyCount(rest);
      forall y | y in since ensures y in rest {
        assert rest[Position(d.order, y) - i - 1] == y;
      }
      SubsetSize(since, (set y | y in rest));
    }
  }
}
