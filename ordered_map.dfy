/**
 * An insertion-ordered map, the behaviour of Kotlin's `mutableMapOf` (a
 * LinkedHashMap): a sequence of entries, oldest key first. Overwriting the
 * value of a key keeps that key where it is; a new key goes to the end.
 */
module OrderedMaps {
  import opened Wrappers

  /** The keys of `m` in iteration order. */
  function Keys<K, V>(m: seq<(K, V)>): (ks: seq<K>)
    ensures |ks| == |m|
    ensures forall i :: 0 <= i < |m| ==> ks[i] == m[i].0
  {
    if m == [] then [] else [m[0].0] + Keys(m[1..])
  }

  ghost predicate Distinct<T>(s: seq<T>) {
    forall i, j :: 0 <= i < j < |s| ==> s[i] != s[j]
  }

  /** The representation invariant of a map: no key occurs twice. */
  ghost predicate DistinctKeys<K, V>(m: seq<(K, V)>) {
    Distinct(Keys(m))
  }

  /** `m[k]`: the value stored under `k`, or None when `k` is no key of `m`. */
  function Get<K(==), V>(m: seq<(K, V)>, k: K): (r: Option<V>)
    ensures r.None? <==> k !in Keys(m)
    ensures r.Some? ==> (k, r.value) in m
  {
    if m == [] then None
    else if m[0].0 == k then Some(m[0].1)
    else Get(m[1..], k)
  }

  /** `m.getOrDefault(k, d)`. */
  function GetOrDefault<K(==), V>(m: seq<(K, V)>, k: K, d: V): (r: V)
    ensures k !in Keys(m) ==> r == d
    ensures k in Keys(m) ==> Get(m, k) == Some(r)
  {
    match Get(m, k)
    case None => d
    case Some(v) => v
  }

  /** `m[k] = v`: overwrite in place, or append a new entry at the end. */
  function Put<K(==, !new), V>(m: seq<(K, V)>, k: K, v: V): (r: seq<(K, V)>)
    ensures Get(r, k) == Some(v)
    ensures Keys(r) == if k in Keys(m) then Keys(m) else Keys(m) + [k]
  {
    if m == [] then [(k, v)]
    else if m[0].0 == k then
      assert ([(k, v)] + m[1..])[1..] == m[1..];
      [(k, v)] + m[1..]
    else
      var rest := Put(m[1..], k, v);
      assert ([m[0]] + rest)[1..] == rest;
      [m[0]] + rest
  }

  /** Writing to a map keeps its keys distinct. */
  lemma PutKeepsKeysDistinct<K(!new), V>(m: seq<(K, V)>, k: K, v: V)
    requires DistinctKeys(m)
    ensures DistinctKeys(Put(m, k, v))
  {
    var ks := Keys(m);
    if k !in ks {
      var ks' := ks + [k];
      forall i, j | 0 <= i < j < |ks'| ensures ks'[i] != ks'[j] {
        if j == |ks| {
          assert ks'[i] == ks[i];
        }
      }
    }
  }

  /** Writing to key `k` leaves every other key's value as it was. */
  lemma {:induction false} PutKeepsOthers<K(!new), V>(m: seq<(K, V)>, k: K, v: V, j: K)
    requires j != k
    ensures Get(Put(m, k, v), j) == Get(m, j)
  {
    if m != [] && m[0].0 != k {
      PutKeepsOthers(m[1..], k, v, j);
    }
  }
}
