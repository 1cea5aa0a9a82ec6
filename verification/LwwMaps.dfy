/** Last-writer-wins register and map: the two-index merge of sorted entry lists, the pointwise join it
    computes, and convergence of replicas that write and synchronise in any pattern. */
module LwwMaps {
  import opened Basics

  datatype Cell<V> = Cell(ts: nat, value: V)

  datatype Entry<K, V> = Entry(key: K, cell: Cell<V>)

  // ---- The laws a value type and a key order promise ----

  ghost predicate StrictOrder<K(!new)>(lt: (K, K) -> bool) {
    && (forall a :: !lt(a, a))
    && (forall a, b :: lt(a, b) || lt(b, a) || a == b)
    && (forall a, b, c :: lt(a, b) && lt(b, c) ==> lt(a, c))
  }

  ghost predicate Semilattice<V(!new)>(join: (V, V) -> V) {
    && (forall a :: join(a, a) == a)
    && (forall a, b :: join(a, b) == join(b, a))
    && (forall a, b, c :: join(join(a, b), c) == join(a, join(b, c)))
  }

  // ---- One register ----

  /** The later write wins; a tie is settled by the values' own join. */
  function JoinCell<V>(join: (V, V) -> V, a: Cell<V>, b: Cell<V>): (r: Cell<V>) {
    if a.ts < b.ts then b
    else if b.ts < a.ts then a
    else Cell(a.ts, join(a.value, b.value))
  }

  function JoinOpt<V>(join: (V, V) -> V, a: Option<Cell<V>>, b: Option<Cell<V>>): (r: Option<Cell<V>>) {
    match (a, b)
    case (None, _) => b
    case (_, None) => a
    case (Some(x), Some(y)) => Some(JoinCell(join, x, y))
  }

  /** Last writer wins, for what one side holds, what the other holds, and what becomes of them: a larger stamp
      takes all, only equal stamps use the values' own join, and what one side alone holds stays. */
  ghost predicate Settles<V>(join: (V, V) -> V, x: Option<Cell<V>>, y: Option<Cell<V>>, z: Option<Cell<V>>) {
    && (x.None? ==> z == y)
    && (y.None? ==> z == x)
    && (x.Some? && y.Some? && x.value.ts < y.value.ts ==> z == y)
    && (x.Some? && y.Some? && y.value.ts < x.value.ts ==> z == x)
    && (x.Some? && y.Some? && x.value.ts == y.value.ts ==>
          z.Some? && z.value.ts == x.value.ts && z.value.value == join(x.value.value, y.value.value))
  }

  lemma JoinOptAssociates<V(!new)>(join: (V, V) -> V, a: Option<Cell<V>>, b: Option<Cell<V>>, c: Option<Cell<V>>)
    requires Semilattice(join)
    ensures JoinOpt(join, JoinOpt(join, a, b), c) == JoinOpt(join, a, JoinOpt(join, b, c))
  {
  }

  class Lww<V> {
    var ts: nat
    var v: V
    const join: (V, V) -> V

    constructor (join: (V, V) -> V, ts: nat, value: V)
      ensures this.join == join && this.ts == ts && v == value
    {
      this.join, this.ts, v := join, ts, value;
    }

    /** A write with a stamp that is not newer is refused and changes nothing. */
    method Update(newTs: nat, newV: V) returns (ok: bool)
      modifies this
      ensures ok <==> newTs > old(ts)
      ensures Cell(ts, v) == if ok then Cell(newTs, newV) else old(Cell(ts, v))
    {
      if newTs > ts {
        ts, v := newTs, newV;
        return true;
      }
      return false;
    }

    method Merge(other: Lww<V>)
      modifies this
      ensures Cell(ts, v) == JoinCell(join, old(Cell(ts, v)), old(Cell(other.ts, other.v)))
      ensures old(ts) < old(other.ts) ==> ts == old(other.ts) && v == old(other.v)
      ensures old(ts) > old(other.ts) ==> ts == old(ts) && v == old(v)
      ensures old(ts) == old(other.ts) ==> ts == old(ts) && v == join(old(v), old(other.v))
    {
      if ts < other.ts {
        ts, v := other.ts, other.v;
      } else if ts == other.ts {
        v := join(v, other.v);
      }
    }
  }

  // ---- Sorted entry lists ----

  ghost predicate Sorted<K(!new), V>(lt: (K, K) -> bool, s: seq<Entry<K, V>>) {
    forall i, j :: 0 <= i < j < |s| ==> lt(s[i].key, s[j].key)
  }

  /** The cell stored under a key, by walking the list. */
  function Lookup<K(==), V>(s: seq<Entry<K, V>>, k: K): (r: Option<Cell<V>>) {
    if s == [] then None
    else if s[0].key == k then Some(s[0].cell)
    else Lookup(s[1..], k)
  }

  function Merged<K, V>(lt: (K, K) -> bool, join: (V, V) -> V, a: seq<Entry<K, V>>, b: seq<Entry<K,
                        V>>): (r: seq<Entry<K, V>>)
    decreases |a| + |b|
  {
    if a == [] then b
    else if b == [] then a
    else if lt(a[0].key, b[0].key) then [a[0]] + Merged(lt, join, a[1..], b)
    else if lt(b[0].key, a[0].key) then [b[0]] + Merged(lt, join, a, b[1..])
    else [Entry(a[0].key, JoinCell(join, a[0].cell, b[0].cell))] + Merged(lt, join, a[1..], b[1..])
  }

  lemma {:induction false} LookupAt<K(!new), V>(lt: (K, K) -> bool, s: seq<Entry<K, V>>, i: nat)
    requires StrictOrder(lt) && Sorted(lt, s) && i < |s|
    ensures Lookup(s, s[i].key) == Some(s[i].cell)
    decreases |s|
  {
    if i > 0 {
      assert lt(s[0].key, s[i].key) && s[1..][i - 1] == s[i];
      LookupAt(lt, s[1..], i - 1);
    }
  }

  lemma {:induction false} LookupFails<K(!new), V>(s: seq<Entry<K, V>>, k: K)
    ensures Lookup(s, k) == None <==> forall e :: e in s ==> e.key != k
  {
    if s != [] {
      LookupFails(s[1..], k);
      assert s == [s[0]] + s[1..];
    }
  }

  /** Nothing is stored below the first key of a sorted list. */
  lemma BelowFirst<K(!new), V>(lt: (K, K) -> bool, s: seq<Entry<K, V>>, k: K)
    requires StrictOrder(lt) && Sorted(lt, s) && (s == [] || lt(k, s[0].key))
    ensures Lookup(s, k) == None
  {
    LookupFails(s, k);
    forall e | e in s
      ensures e.key != k
    {
      var i :| 0 <= i < |s| && s[i] == e;
      assert i == 0 || lt(s[0].key, s[i].key);
    }
  }

  /** Keys below everything in both lists are below everything in the merge. */
  lemma {:induction false} MergedAbove<K(!new), V>(lt: (K, K) -> bool, join: (V, V) -> V, a: seq<Entry<K, V>>,
                                                   b: seq<Entry<K, V>>, k: K)
    requires forall e :: e in a || e in b ==> lt(k, e.key)
    ensures forall e :: e in Merged(lt, join, a, b) ==> lt(k, e.key)
    decreases |a| + |b|
  {
    if a != [] && b != [] {
      assert a[0] in a && b[0] in b;
      if lt(a[0].key, b[0].key) {
        MergedAbove(lt, join, a[1..], b, k);
      } else if lt(b[0].key, a[0].key) {
        MergedAbove(lt, join, a, b[1..], k);
      } else {
        MergedAbove(lt, join, a[1..], b[1..], k);
      }
    }
  }

  lemma PushFront<K(!new), V>(lt: (K, K) -> bool, e: Entry<K, V>, s: seq<Entry<K, V>>)
    requires Sorted(lt, s) && forall x :: x in s ==> lt(e.key, x.key)
    ensures Sorted(lt, [e] + s)
  {
  }

  lemma TailAbove<K(!new), V>(lt: (K, K) -> bool, s: seq<Entry<K, V>>, k: K)
    requires StrictOrder(lt) && Sorted(lt, s) && s != [] && (k == s[0].key || lt(k, s[0].key))
    ensures Sorted(lt, s[1..])
    ensures forall e :: e in s[1..] ==> lt(k, e.key)
    ensures lt(k, s[0].key) ==> forall e :: e in s ==> lt(k, e.key)
  {
    forall e | e in s[1..]
      ensures lt(k, e.key)
    {
      var i :| 1 <= i < |s| && s[i] == e;
      assert lt(s[0].key, s[i].key);
    }
    assert s == [s[0]] + s[1..];
  }

  /** The merge of two sorted lists is sorted, with no key twice. */
  lemma {:induction false} MergedSorted<K(!new), V>(lt: (K, K) -> bool, join: (V, V) -> V, a: seq<Entry<K, V>>,
                                                    b: seq<Entry<K, V>>)
    requires StrictOrder(lt) && Sorted(lt, a) && Sorted(lt, b)
    ensures Sorted(lt, Merged(lt, join, a, b))
    decreases |a| + |b|
  {
    if a != [] && b != [] {
      if lt(a[0].key, b[0].key) {
        TailAbove(lt, a, a[0].key);
        TailAbove(lt, b, a[0].key);
        MergedSorted(lt, join, a[1..], b);
        MergedAbove(lt, join, a[1..], b, a[0].key);
        PushFront(lt, a[0], Merged(lt, join, a[1..], b));
      } else if lt(b[0].key, a[0].key) {
        TailAbove(lt, a, b[0].key);
        TailAbove(lt, b, b[0].key);
        MergedSorted(lt, join, a, b[1..]);
        MergedAbove(lt, join, a, b[1..], b[0].key);
        PushFront(lt, b[0], Merged(lt, join, a, b[1..]));
      } else {
        TailAbove(lt, a, a[0].key);
        TailAbove(lt, b, b[0].key);
        MergedSorted(lt, join, a[1..], b[1..]);
        MergedAbove(lt, join, a[1..], b[1..], a[0].key);
        PushFront(lt, Entry(a[0].key, JoinCell(join, a[0].cell, b[0].cell)), Merged(lt, join, a[1..], b[1..]));
      }
    }
  }

  /** The merge is the pointwise join: under every key, the join of what the two lists hold there. */
  lemma {:induction false} MergedIsPointwise<K(!new), V>(lt: (K, K) -> bool, join: (V, V) -> V, a: seq<Entry<K, V>>,
                                                         b: seq<Entry<K, V>>, k: K)
    requires StrictOrder(lt) && Sorted(lt, a) && Sorted(lt, b)
    ensures Lookup(Merged(lt, join, a, b), k) == JoinOpt(join, Lookup(a, k), Lookup(b, k))
    decreases |a| + |b|
  {
    if a != [] && b != [] {
      if lt(a[0].key, b[0].key) {
        TailAbove(lt, a, a[0].key);
        BelowFirst(lt, b, a[0].key);
        MergedIsPointwise(lt, join, a[1..], b, k);
      } else if lt(b[0].key, a[0].key) {
        TailAbove(lt, b, b[0].key);
        BelowFirst(lt, a, b[0].key);
        MergedIsPointwise(lt, join, a, b[1..], k);
      } else {
        TailAbove(lt, a, a[0].key);
        TailAbove(lt, b, b[0].key);
        MergedIsPointwise(lt, join, a[1..], b[1..], k);
      }
    }
  }

  /** Under every key the later write wins; only equal stamps are settled by the values' own join. */
  lemma LastWriterWins<K(!new), V>(lt: (K, K) -> bool, join: (V, V) -> V, a: seq<Entry<K, V>>,
                                   b: seq<Entry<K, V>>, k: K)
    requires StrictOrder(lt) && Sorted(lt, a) && Sorted(lt, b)
    ensures Settles(join, Lookup(a, k), Lookup(b, k), Lookup(Merged(lt, join, a, b), k))
  {
    MergedIsPointwise(lt, join, a, b, k);
  }

  /** Sorted lists are canonical: lists that answer every lookup alike are the same list. */
  lemma {:induction false} SortedIsCanonical<K(!new), V>(lt: (K, K) -> bool, a: seq<Entry<K, V>>, b: seq<Entry<K, V>>)
    requires StrictOrder(lt) && Sorted(lt, a) && Sorted(lt, b)
    requires forall k :: Lookup(a, k) == Lookup(b, k)
    ensures a == b
    decreases |a|
  {
    if a == [] || b == [] {
      if a != [] {
        LookupAt(lt, a, 0);
      }
      if b != [] {
        LookupAt(lt, b, 0);
      }
    } else {
      LookupAt(lt, a, 0);
      LookupAt(lt, b, 0);
      if lt(a[0].key, b[0].key) {
        BelowFirst(lt, b, a[0].key);
      } else if lt(b[0].key, a[0].key) {
        BelowFirst(lt, a, b[0].key);
      } else {
        TailAbove(lt, a, a[0].key);
        TailAbove(lt, b, b[0].key);
        forall k
          ensures Lookup(a[1..], k) == Lookup(b[1..], k)
        {
          assert Lookup(a, k) == Lookup(b, k);
          if k == a[0].key {
            LookupFails(a[1..], k);
            LookupFails(b[1..], k);
          }
        }
        SortedIsCanonical(lt, a[1..], b[1..]);
        assert a == [a[0]] + a[1..] && b == [b[0]] + b[1..];
      }
    }
  }

  /** With the two indices at `i` and `j`, what has been put out and the merge of the rests make up the whole. */
  ghost predicate Walked<K, V>(lt: (K, K) -> bool, join: (V, V) -> V, a: seq<Entry<K, V>>, b: seq<Entry<K, V>>,
                               i: nat, j: nat, out: seq<Entry<K, V>>) {
    i <= |a| && j <= |b| && out + Merged(lt, join, a[i..], b[j..]) == Merged(lt, join, a, b)
  }

  lemma WalkStart<K, V>(lt: (K, K) -> bool, join: (V, V) -> V, a: seq<Entry<K, V>>, b: seq<Entry<K, V>>)
    ensures Walked(lt, join, a, b, 0, 0, [])
  {
    assert a[0..] == a && b[0..] == b;
  }

  /** One step of the walk with both indices inside their lists. */
  lemma WalkStep<K, V>(lt: (K, K) -> bool, join: (V, V) -> V, a: seq<Entry<K, V>>, b: seq<Entry<K, V>>, i: nat,
                       j: nat, out: seq<Entry<K, V>>)
    requires Walked(lt, join, a, b, i, j, out) && i < |a| && j < |b|
    ensures if lt(a[i].key, b[j].key) then Walked(lt, join, a, b, i + 1, j, out + [a[i]])
            else if lt(b[j].key, a[i].key) then Walked(lt, join, a, b, i, j + 1, out + [b[j]])
            else Walked(lt, join, a, b, i + 1, j + 1, out + [Entry(a[i].key, JoinCell(join, a[i].cell, b[j].cell))])
  {
    assert a[i..][1..] == a[i + 1..] && b[j..][1..] == b[j + 1..];
  }

  /** Once one list is used up the rest of the other follows unchanged. */
  lemma WalkRest<K, V>(lt: (K, K) -> bool, join: (V, V) -> V, a: seq<Entry<K, V>>, b: seq<Entry<K, V>>, i: nat,
                       j: nat, out: seq<Entry<K, V>>)
    requires Walked(lt, join, a, b, i, j, out)
    ensures i < |a| && j == |b| ==> Walked(lt, join, a, b, i + 1, j, out + [a[i]])
    ensures i == |a| && j < |b| ==> Walked(lt, join, a, b, i, j + 1, out + [b[j]])
    ensures i == |a| && j == |b| ==> out == Merged(lt, join, a, b)
  {
    if i < |a| && j == |b| {
      assert a[i..] == [a[i]] + a[i + 1..];
    }
    if i == |a| && j < |b| {
      assert b[j..] == [b[j]] + b[j + 1..];
    }
  }

  // ---- The map object ----

  class LwwMap<K(==,!new), V> {
    const lt: (K, K) -> bool
    const join: (V, V) -> V
    var vals: seq<Entry<K, V>>

    constructor (lt: (K, K) -> bool, join: (V, V) -> V)
      ensures this.lt == lt && this.join == join && vals == []
    {
      this.lt, this.join, vals := lt, join, [];
    }

    /** The two-index walk over both lists. */
    method Merge(other: seq<Entry<K, V>>)
      requires StrictOrder(lt)
      modifies this
      ensures vals == Merged(lt, join, old(vals), other)
      ensures Sorted(lt, old(vals)) && Sorted(lt, other) ==>
                Sorted(lt, vals) && forall k :: Settles(join, Lookup(old(vals), k), Lookup(other, k), Lookup(vals, k))
    {
      hide Merged, Sorted, StrictOrder, Walked, JoinCell, Settles, Lookup;
      var out: seq<Entry<K, V>> := [];
      var i, j := 0, 0;
      var a, b := vals, other;
      WalkStart(lt, join, a, b);
      while i < |a| && j < |b|
        invariant i <= |a| && j <= |b| && Walked(lt, join, a, b, i, j, out)
        decreases |a| - i + |b| - j
      {
        WalkStep(lt, join, a, b, i, j, out);
        if lt(a[i].key, b[j].key) {
          out, i := out + [a[i]], i + 1;
        } else if lt(b[j].key, a[i].key) {
          out, j := out + [b[j]], j + 1;
        } else {
          var cell := Resolve(a[i].cell, b[j].cell);
          out, i, j := out + [Entry(a[i].key, cell)], i + 1, j + 1;
        }
      }
      while i < |a|
        invariant i <= |a| && j <= |b| && (i == |a| || j == |b|) && Walked(lt, join, a, b, i, j, out)
      {
        WalkRest(lt, join, a, b, i, j, out);
        out, i := out + [a[i]], i + 1;
      }
      while j < |b|
        invariant i == |a| && j <= |b| && Walked(lt, join, a, b, i, j, out)
      {
        WalkRest(lt, join, a, b, i, j, out);
        out, j := out + [b[j]], j + 1;
      }
      WalkRest(lt, join, a, b, i, j, out);
      vals := out;
      if Sorted(lt, old(vals)) && Sorted(lt, other) {
        MergedSorted(lt, join, old(vals), other);
        forall k
          ensures Settles(join, Lookup(old(vals), k), Lookup(other, k), Lookup(vals, k))
        {
          LastWriterWins(lt, join, old(vals), other, k);
        }
      }
    }

    /** Settle a key that both sides hold. */
    method Resolve(ca: Cell<V>, cb: Cell<V>) returns (cell: Cell<V>)
      ensures cell == JoinCell(join, ca, cb)
    {
      if ca.ts < cb.ts {
        cell := cb;
      } else if ca.ts > cb.ts {
        cell := ca;
      } else {
        cell := Cell(ca.ts, join(ca.value, cb.value));
      }
    }

    method Put(k: K, ts: nat, v: V)
      requires StrictOrder(lt)
      modifies this
      ensures vals == Merged(lt, join, old(vals), [Entry(k, Cell(ts, v))])
      ensures Sorted(lt, old(vals)) ==> Sorted(lt, vals)
    {
      Merge([Entry(k, Cell(ts, v))]);
    }

    /** Binary search over the sorted keys. */
    method Get(k: K) returns (r: Option<Cell<V>>)
      requires StrictOrder(lt) && Sorted(lt, vals)
      ensures r == Lookup(vals, k)
    {
      var lo, hi := 0, |vals|;
      while lo < hi
        invariant lo <= hi <= |vals|
        invariant forall i :: 0 <= i < lo ==> lt(vals[i].key, k)
        invariant forall i :: hi <= i < |vals| ==> lt(k, vals[i].key)
      {
        var mid := lo + (hi - lo) / 2;
        if lt(vals[mid].key, k) {
          lo := mid + 1;
        } else if lt(k, vals[mid].key) {
          hi := mid;
        } else {
          LookupAt(lt, vals, mid);
          return Some(vals[mid].cell);
        }
      }
      LookupFails(vals, k);
      return None;
    }
  }

  // ---- Merge laws ----

  ghost predicate MapLaws<K(!new), V(!new)>(lt: (K, K) -> bool, join: (V, V) -> V) {
    && (forall a: seq<Entry<K, V>> :: Sorted(lt, a) ==> Merged(lt, join, a, a) == a)
    && (forall a: seq<Entry<K, V>>, b: seq<Entry<K, V>> :: Sorted(lt, a) && Sorted(lt, b) ==>
              Merged(lt, join, a, b) == Merged(lt, join, b, a))
    && (forall a: seq<Entry<K, V>>, b: seq<Entry<K, V>>, c: seq<Entry<K, V>> ::
          Sorted(lt, a) && Sorted(lt, b) && Sorted(lt, c) ==>
            Merged(lt, join, Merged(lt, join, a, b), c) == Merged(lt, join, a, Merged(lt, join, b, c)))
  }

  lemma MergeIdempotent<K(!new), V(!new)>(lt: (K, K) -> bool, join: (V, V) -> V, a: seq<Entry<K, V>>)
    requires StrictOrder(lt) && Semilattice(join) && Sorted(lt, a)
    ensures Merged(lt, join, a, a) == a
  {
    var m := Merged(lt, join, a, a);
    MergedSorted(lt, join, a, a);
    forall k
      ensures Lookup(m, k) == Lookup(a, k)
    {
      MergedIsPointwise(lt, join, a, a, k);
    }
    SortedIsCanonical(lt, m, a);
  }

  lemma MergeCommutes<K(!new), V(!new)>(lt: (K, K) -> bool, join: (V, V) -> V, a: seq<Entry<K, V>>, b: seq<Entry<K, V>>)
    requires StrictOrder(lt) && Semilattice(join) && Sorted(lt, a) && Sorted(lt, b)
    ensures Merged(lt, join, a, b) == Merged(lt, join, b, a)
  {
    var m, n := Merged(lt, join, a, b), Merged(lt, join, b, a);
    MergedSorted(lt, join, a, b);
    MergedSorted(lt, join, b, a);
    forall k
      ensures Lookup(m, k) == Lookup(n, k)
    {
      MergedIsPointwise(lt, join, a, b, k);
      MergedIsPointwise(lt, join, b, a, k);
    }
    SortedIsCanonical(lt, m, n);
  }

  lemma MergeAssociates<K(!new), V(!new)>(lt: (K, K) -> bool, join: (V, V) -> V, a: seq<Entry<K, V>>, b: seq<Entry<K,
                                          V>>, c: seq<Entry<K, V>>)
    requires StrictOrder(lt) && Semilattice(join) && Sorted(lt, a) && Sorted(lt, b) && Sorted(lt, c)
    ensures Merged(lt, join, Merged(lt, join, a, b), c) == Merged(lt, join, a, Merged(lt, join, b, c))
  {
    var ab, bc := Merged(lt, join, a, b), Merged(lt, join, b, c);
    MergedSorted(lt, join, a, b);
    MergedSorted(lt, join, b, c);
    MergedSorted(lt, join, ab, c);
    MergedSorted(lt, join, a, bc);
    var m, n := Merged(lt, join, ab, c), Merged(lt, join, a, bc);
    forall k
      ensures Lookup(m, k) == Lookup(n, k)
    {
      MergedIsPointwise(lt, join, a, b, k);
      MergedIsPointwise(lt, join, b, c, k);
      MergedIsPointwise(lt, join, ab, c, k);
      MergedIsPointwise(lt, join, a, bc, k);
      JoinOptAssociates(join, Lookup(a, k), Lookup(b, k), Lookup(c, k));
    }
    SortedIsCanonical(lt, m, n);
  }

  /** A tie between two single-entry maps exposes the values' own join. */
  lemma TieExposesJoin<K(!new), V(!new)>(lt: (K, K) -> bool, join: (V, V) -> V, k: K, x: V, y: V)
    requires StrictOrder(lt)
    ensures Merged(lt, join, [Entry(k, Cell(0, x))], [Entry(k, Cell(0, y))]) == [Entry(k, Cell(0, join(x, y)))]
  {
    var a, b := [Entry(k, Cell(0, x))], [Entry(k, Cell(0, y))];
    assert a[1..] == [] && b[1..] == [];
  }

  /** The map is a semilattice exactly when its value type is one. Idempotence of the values is needed
      in the form x ⊔ x = x; the weaker (x ⊔ y) ⊔ y = x ⊔ y is not enough. */
  lemma MapLawsExactly<K(!new), V(!new)>(lt: (K, K) -> bool, join: (V, V) -> V, k: K)
    requires StrictOrder(lt)
    ensures MapLaws(lt, join) <==> Semilattice(join)
  {
    if Semilattice(join) {
      forall a: seq<Entry<K, V>> | Sorted(lt, a)
        ensures Merged(lt, join, a, a) == a
      {
        MergeIdempotent(lt, join, a);
      }
      forall a: seq<Entry<K, V>>, b: seq<Entry<K, V>> | Sorted(lt, a) && Sorted(lt, b)
        ensures Merged(lt, join, a, b) == Merged(lt, join, b, a)
      {
        MergeCommutes(lt, join, a, b);
      }
      forall a: seq<Entry<K, V>>, b: seq<Entry<K, V>>, c: seq<Entry<K, V>> | Sorted(lt, a) && Sorted(lt, b)
              && Sorted(lt, c)
        ensures Merged(lt, join, Merged(lt, join, a, b), c) == Merged(lt, join, a, Merged(lt, join, b, c))
      {
        MergeAssociates(lt, join, a, b, c);
      }
    }
    if MapLaws(lt, join) {
      JoinInheritsLaws(lt, join, k);
    }
  }

  lemma JoinInheritsLaws<K(!new), V(!new)>(lt: (K, K) -> bool, join: (V, V) -> V, k: K)
    requires StrictOrder(lt) && MapLaws(lt, join)
    ensures Semilattice(join)
  {
    forall x
      ensures join(x, x) == x
    {
      TieExposesJoin(lt, join, k, x, x);
      assert Sorted(lt, [Entry(k, Cell(0, x))]);
    }
    forall x, y
      ensures join(x, y) == join(y, x)
    {
      TieExposesJoin(lt, join, k, x, y);
      TieExposesJoin(lt, join, k, y, x);
      assert Sorted(lt, [Entry(k, Cell(0, x))]) && Sorted(lt, [Entry(k, Cell(0, y))]);
    }
    forall x, y, z
      ensures join(join(x, y), z) == join(x, join(y, z))
    {
      TieExposesJoin(lt, join, k, x, y);
      TieExposesJoin(lt, join, k, y, z);
      TieExposesJoin(lt, join, k, join(x, y), z);
      TieExposesJoin(lt, join, k, x, join(y, z));
      assert Sorted(lt, [Entry(k, Cell(0, x))]) && Sorted(lt, [Entry(k, Cell(0, y))])
              && Sorted(lt, [Entry(k, Cell(0, z))]);
    }
  }

  /** The trait's three axioms as its documentation words them. */
  ghost predicate DocumentedAxioms<V(!new)>(join: (V, V) -> V) {
    && (forall a, b :: join(a, b) == join(b, a))
    && (forall a, b, c :: join(join(a, b), c) == join(a, join(b, c)))
    && (forall a, b :: join(join(a, b), b) == join(a, b))
  }

  function Forget(a: int, b: int): (r: int) { 0 }

  /** They are not enough: a join that forgets everything meets them, and still merging a map with itself
      changes it, whatever the key, the stamp and the value, as long as the value is not the forgotten one. */
  lemma DocumentedAxiomsAreTooWeak<K(!new)>(lt: (K, K) -> bool, k: K, ts: nat, x: int)
    requires StrictOrder(lt) && x != 0
    ensures DocumentedAxioms(Forget)
    ensures var e := [Entry(k, Cell(ts, x))];
            Sorted(lt, e) && Merged(lt, Forget, e, e) != e
    ensures !MapLaws(lt, Forget) && !Semilattice(Forget)
  {
    var e := [Entry(k, Cell(ts, x))];
    assert e[1..] == [];
    assert Merged(lt, Forget, e, e)[0].cell == Cell(ts, 0);
    assert Forget(x, x) != x;
    assert Sorted(lt, e);
  }

  /** What the documented axioms lack is exactly x ⊔ x = x. */
  lemma DocumentedAxiomsNeedIdempotence<V(!new)>(join: (V, V) -> V)
    ensures Semilattice(join) <==> DocumentedAxioms(join) && forall a :: join(a, a) == a
  {
    if Semilattice(join) {
      forall a, b
        ensures join(join(a, b), b) == join(a, b)
      {
        assert join(join(a, b), b) == join(a, join(b, b));
      }
    }
  }

  // ---- Convergence ----

  /** How a replica came to its state: from nothing, by a local put, or by merging another replica. */
  datatype History<K, V> = Fresh | Wrote(before: History<K, V>, entry: Entry<K, V>) | Synced(mine: History<K, V>,
          theirs: History<K, V>)

  function State<K, V>(lt: (K, K) -> bool, join: (V, V) -> V, h: History<K, V>): (r: seq<Entry<K, V>>) {
    match h
    case Fresh => []
    case Wrote(g, e) => Merged(lt, join, State(lt, join, g), [e])
    case Synced(mine, theirs) => Merged(lt, join, State(lt, join, mine), State(lt, join, theirs))
  }

  /** The puts a history knows of. */
  ghost function Puts<K, V>(h: History<K, V>): (r: set<Entry<K, V>>) {
    match h
    case Fresh => {}
    case Wrote(g, e) => Puts(g) + {e}
    case Synced(mine, theirs) => Puts(mine) + Puts(theirs)
  }

  lemma {:induction false} StateSorted<K(!new), V>(lt: (K, K) -> bool, join: (V, V) -> V, h: History<K, V>)
    requires StrictOrder(lt)
    ensures Sorted(lt, State(lt, join, h))
  {
    match h
    case Fresh =>
    case Wrote(g, e) =>
      StateSorted(lt, join, g);
      MergedSorted(lt, join, State(lt, join, g), [e]);
    case Synced(mine, theirs) =>
      StateSorted(lt, join, mine);
      StateSorted(lt, join, theirs);
      MergedSorted(lt, join, State(lt, join, mine), State(lt, join, theirs));
  }

  /** Writing again something already known changes nothing. */
  lemma {:induction false} KnownPutAbsorbed<K(!new), V(!new)>(lt: (K, K) -> bool, join: (V, V) -> V, h: History<K, V>,
                                                              e: Entry<K, V>)
    requires StrictOrder(lt) && Semilattice(join) && e in Puts(h)
    ensures Merged(lt, join, State(lt, join, h), [e]) == State(lt, join, h)
  {
    match h
    case Fresh =>
    case Wrote(g, d) =>
      var s := State(lt, join, g);
      StateSorted(lt, join, g);
      MergeAssociates(lt, join, s, [d], [e]);
      if e == d {
        MergeIdempotent(lt, join, [e]);
      } else {
        KnownPutAbsorbed(lt, join, g, e);
        MergeCommutes(lt, join, [d], [e]);
        MergeAssociates(lt, join, s, [e], [d]);
      }
    case Synced(mine, theirs) =>
      var s, t := State(lt, join, mine), State(lt, join, theirs);
      StateSorted(lt, join, mine);
      StateSorted(lt, join, theirs);
      MergeAssociates(lt, join, s, t, [e]);
      if e in Puts(theirs) {
        KnownPutAbsorbed(lt, join, theirs, e);
      } else {
        KnownPutAbsorbed(lt, join, mine, e);
        MergeCommutes(lt, join, t, [e]);
        MergeAssociates(lt, join, s, [e], t);
      }
  }

  /** Merging in a replica that knows nothing new changes nothing. */
  lemma {:induction false} KnownStateAbsorbed<K(!new), V(!new)>(lt: (K, K) -> bool, join: (V, V) -> V, h: History<K,
                                                                V>, g: History<K, V>)
    requires StrictOrder(lt) && Semilattice(join) && Puts(g) <= Puts(h)
    ensures Merged(lt, join, State(lt, join, h), State(lt, join, g)) == State(lt, join, h)
    decreases g
  {
    var s := State(lt, join, h);
    StateSorted(lt, join, h);
    match g
    case Fresh =>
    case Wrote(f, e) =>
      StateSorted(lt, join, f);
      KnownStateAbsorbed(lt, join, h, f);
      KnownPutAbsorbed(lt, join, h, e);
      MergeAssociates(lt, join, s, State(lt, join, f), [e]);
    case Synced(mine, theirs) =>
      StateSorted(lt, join, mine);
      StateSorted(lt, join, theirs);
      KnownStateAbsorbed(lt, join, h, mine);
      KnownStateAbsorbed(lt, join, h, theirs);
      MergeAssociates(lt, join, s, State(lt, join, mine), State(lt, join, theirs));
  }

  /** What the puts of a key say about what is held there: nothing without a put, otherwise the stamp of one of
      them that none exceeds. */
  lemma {:induction false} NewestStampStands<K(!new), V>(lt: (K, K) -> bool, join: (V, V) -> V, h: History<K, V>, k: K)
    requires StrictOrder(lt)
    ensures Lookup(State(lt, join, h), k) == None <==> forall d :: d in Puts(h) ==> d.key != k
    ensures Lookup(State(lt, join, h), k).Some? ==>
              exists e :: e in Puts(h) && e.key == k && e.cell.ts == Lookup(State(lt, join, h), k).value.ts
    ensures forall d :: d in Puts(h) && d.key == k && Lookup(State(lt, join, h), k).Some? ==>
              d.cell.ts <= Lookup(State(lt, join, h), k).value.ts
    decreases h
  {
    hide Merged;
    match h
    case Fresh =>
    case Wrote(g, e) =>
      NewestStampStands(lt, join, g, k);
      StateSorted(lt, join, g);
      LastWriterWins(lt, join, State(lt, join, g), [e], k);
      OneEntry(e, k);
    case Synced(mine, theirs) =>
      NewestStampStands(lt, join, mine, k);
      NewestStampStands(lt, join, theirs, k);
      StateSorted(lt, join, mine);
      StateSorted(lt, join, theirs);
      LastWriterWins(lt, join, State(lt, join, mine), State(lt, join, theirs), k);
  }

  lemma OneEntry<K(!new), V>(e: Entry<K, V>, k: K)
    ensures Lookup([e], k) == if k == e.key then Some(e.cell) else None
  {
    assert [e][1..] == [];
  }

  /** The put is known, and every other known put of its key has a smaller stamp. */
  ghost predicate Newest<K(!new), V(!new)>(h: History<K, V>, e: Entry<K, V>) {
    e in Puts(h) && forall d :: d in Puts(h) && d.key == e.key && d != e ==> d.cell.ts < e.cell.ts
  }

  /** Last writer wins over any history: a put later than every other known put of its key is exactly what the
      replica holds there, however often and along whatever merges it arrived. */
  lemma {:induction false} NewestPutStands<K(!new), V(!new)>(lt: (K, K) -> bool, join: (V, V) -> V, h: History<K, V>,
                                                             e: Entry<K, V>)
    requires StrictOrder(lt) && (forall a :: join(a, a) == a) && Newest(h, e)
    ensures Lookup(State(lt, join, h), e.key) == Some(e.cell)
    decreases h
  {
    hide Merged;
    match h
    case Fresh =>
    case Wrote(g, d) =>
      var s := State(lt, join, g);
      StateSorted(lt, join, g);
      LastWriterWins(lt, join, s, [d], e.key);
      OneEntry(d, e.key);
      if e in Puts(g) {
        NewestPutStands(lt, join, g, e);
      } else {
        NewestStampStands(lt, join, g, e.key);
      }
    case Synced(mine, theirs) =>
      StateSorted(lt, join, mine);
      StateSorted(lt, join, theirs);
      LastWriterWins(lt, join, State(lt, join, mine), State(lt, join, theirs), e.key);
      if e in Puts(mine) {
        NewestPutStands(lt, join, mine, e);
      } else {
        NewestStampStands(lt, join, mine, e.key);
      }
      if e in Puts(theirs) {
        NewestPutStands(lt, join, theirs, e);
      } else {
        NewestStampStands(lt, join, theirs, e.key);
      }
  }

  /** Strong eventual consistency: replicas that know of the same puts hold the same list, whatever the
      order, repetition and merging pattern through which they learned of them. */
  lemma ReplicasConverge<K(!new), V(!new)>(lt: (K, K) -> bool, join: (V, V) -> V, g: History<K, V>, h: History<K, V>)
    requires StrictOrder(lt) && Semilattice(join) && Puts(g) == Puts(h)
    ensures State(lt, join, g) == State(lt, join, h)
  {
    KnownStateAbsorbed(lt, join, g, h);
    KnownStateAbsorbed(lt, join, h, g);
    StateSorted(lt, join, g);
    StateSorted(lt, join, h);
    MergeCommutes(lt, join, State(lt, join, g), State(lt, join, h));
  }
}
