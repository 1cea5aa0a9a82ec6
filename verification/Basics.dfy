/** Small shared vocabulary: fixed-width integers, options, results, and maps rebuilt from a
    listing of their entries. */
module Basics {

  const MAX_U64: int := 0xFFFF_FFFF_FFFF_FFFF
  const MAX_U128: int := 0xFFFF_FFFF_FFFF_FFFF_FFFF_FFFF_FFFF_FFFF

  type U64 = x: int | 0 <= x <= 0xFFFF_FFFF_FFFF_FFFF
  type U128 = x: int | 0 <= x <= 0xFFFF_FFFF_FFFF_FFFF_FFFF_FFFF_FFFF_FFFF

  datatype Option<+T> = None | Some(value: T)

  datatype Result<+T, +E> = Ok(value: T) | Err(error: E)

  /** `pairs` lists every entry of `m` exactly once, in some order. */
  ghost predicate Enumerates<K, V>(pairs: seq<(K, V)>, m: map<K, V>) {
    && (forall i, j :: 0 <= i < j < |pairs| ==> pairs[i].0 != pairs[j].0)
    && (forall i :: 0 <= i < |pairs| ==> pairs[i].0 in m && m[pairs[i].0] == pairs[i].1)
    && (forall k :: k in m ==> exists i :: 0 <= i < |pairs| && pairs[i].0 == k)
  }

  /** Insert the pairs from left to right; a later pair replaces an earlier one with its key. */
  function Collect<K, V>(pairs: seq<(K, V)>): (m: map<K, V>)
  {
    if pairs == [] then map[]
    else
      var last := pairs[|pairs| - 1];
      Collect(pairs[..|pairs| - 1])[last.0 := last.1]
  }

  /** Dropping the last listed entry lists the map without that entry's key. */
  lemma EnumerationShrinks<K, V>(pairs: seq<(K, V)>, m: map<K, V>)
    requires Enumerates(pairs, m)
    requires pairs != []
    ensures pairs[|pairs| - 1].0 in m
    ensures Enumerates(pairs[..|pairs| - 1], m - {pairs[|pairs| - 1].0})
  {
    var n := |pairs| - 1;
    var rest := m - {pairs[n].0};
    forall k | k in rest
      ensures exists i :: 0 <= i < |pairs[..n]| && pairs[..n][i].0 == k
    {
      var i :| 0 <= i < |pairs| && pairs[i].0 == k;
      assert pairs[..n][i].0 == k;
    }
  }

  lemma ListedKeys<K, V>(pairs: seq<(K, V)>, m: map<K, V>, k: K)
    requires Enumerates(pairs, m)
    ensures k in m <==> exists i :: 0 <= i < |pairs| && pairs[i].0 == k
  {
  }

  /** One more entry under a new key lists one more entry of the map. */
  lemma EnumerationGrows<K, V>(pairs: seq<(K, V)>, m: map<K, V>, k: K, v: V)
    requires Enumerates(pairs, m) && k !in m
    ensures Enumerates(pairs + [(k, v)], m[k := v]) && |m[k := v]| == |m| + 1
  {
    var m', all := m[k := v], pairs + [(k, v)];
    assert m'.Keys == m.Keys + {k} && |m'.Keys| == |m'|;
    forall i | 0 <= i < |pairs|
      ensures all[i] == pairs[i] && pairs[i].0 != k
    {
    }
    forall x | x in m'
      ensures exists i :: 0 <= i < |all| && all[i].0 == x
    {
      if x == k {
        assert all[|pairs|].0 == x;
      } else {
        var i :| 0 <= i < |pairs| && pairs[i].0 == x;
        assert all[i].0 == x;
      }
    }
  }

  /** Collecting any listing of a map gives the map back. */
  lemma {:induction false} CollectEnumeration<K, V>(pairs: seq<(K, V)>, m: map<K, V>)
    requires Enumerates(pairs, m)
    ensures Collect(pairs) == m
    decreases |pairs|
  {
    if pairs == [] {
      assert m == map[];
    } else {
      var last := pairs[|pairs| - 1];
      EnumerationShrinks(pairs, m);
      CollectEnumeration(pairs[..|pairs| - 1], m - {last.0});
      assert m == (m - {last.0})[last.0 := last.1];
    }
  }

  /** A subset is no larger, and as large only if it is the whole set. */
  lemma SubsetSize<T>(a: set<T>, b: set<T>)
    requires a <= b
    ensures |a| <= |b|
    ensures |a| == |b| ==> a == b
  {
    assert b == a + (b - a);
    assert |b| == |a| + |b - a|;
  }
}
