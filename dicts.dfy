// Python's insertion-ordered `dict`, as the list of its (key, value) pairs in
// insertion order. Assignment to a present key keeps its place.
module Dicts {
  import opened Wrappers
  import Seqs

  type Dict<K, V> = seq<(K, V)>

  /** No key occurs twice: what every dict satisfies. */
  predicate DistinctKeys<K(==), V>(d: Dict<K, V>) {
    forall i, j :: 0 <= i < j < |d| ==> d[i].0 != d[j].0
  }

  /** The keys, in insertion order. */
  function Keys<K, V>(d: Dict<K, V>): (keys: seq<K>)
    ensures |keys| == |d|
  {
    if d == [] then [] else [d[0].0] + Keys(d[1..])
  }

  /** `d[k] = v`: a present key keeps its place and takes the new value; a new key goes last. */
  function Put<K(==), V>(d: Dict<K, V>, k: K, v: V): (r: Dict<K, V>)
    ensures |r| == |d| || |r| == |d| + 1
    ensures forall i :: 0 <= i < |r| ==> r[i] == (k, v) || r[i] in d
    ensures (k, v) in r
  {
    if d == [] then [(k, v)]
    else if d[0].0 == k then [(k, v)] + d[1..]
    else [d[0]] + Put(d[1..], k, v)
  }

  /** `d.get(k)`. */
  function Get<K(==), V>(d: Dict<K, V>, k: K): Option<V> {
    if d == [] then None else if d[0].0 == k then Some(d[0].1) else Get(d[1..], k)
  }

  /** After `d[k] = v`, `k` holds `v` and every other key keeps its value. */
  lemma {:induction false} PutGet<K, V>(d: Dict<K, V>, k: K, v: V, q: K)
    ensures Get(Put(d, k, v), q) == if q == k then Some(v) else Get(d, q)
  {
    if d != [] && d[0].0 != k {
      PutGet(d[1..], k, v, q);
    }
  }

  /** Assignment keeps the keys and their order, appending the key when it is new. */
  lemma {:induction false} PutKeys<K, V>(d: Dict<K, V>, k: K, v: V)
    ensures Keys(Put(d, k, v)) == if k in Keys(d) then Keys(d) else Keys(d) + [k]
  {
    if d == [] {
      assert Keys(Put(d, k, v)) == [k];
    } else if d[0].0 == k {
      assert Keys(Put(d, k, v)) == [k] + Keys(d[1..]);
    } else {
      var rest := Put(d[1..], k, v);
      PutKeys(d[1..], k, v);
      assert Put(d, k, v) == [d[0]] + rest;
      KeysCons(d[0], rest);
      assert d == [d[0]] + d[1..];
      KeysCons(d[0], d[1..]);
      ConsKeys(d[0].0, Keys(d[1..]), k, Keys(rest));
    }
  }

  /** The key list of a dict whose first key is not the one assigned. */
  lemma ConsKeys<K>(a: K, tail: seq<K>, k: K, ih: seq<K>)
    requires a != k
    requires ih == if k in tail then tail else tail + [k]
    ensures [a] + ih == if k in [a] + tail then [a] + tail else [a] + tail + [k]
  {
    if k !in tail {
      Seqs.AppendAssoc([a], tail, [k]);
    }
  }

  lemma KeysCons<K, V>(x: (K, V), d: Dict<K, V>)
    ensures Keys([x] + d) == [x.0] + Keys(d)
  {
    assert ([x] + d)[1..] == d;
  }

  /** Assignment never repeats a key. */
  lemma {:induction false} PutDistinct<K, V>(d: Dict<K, V>, k: K, v: V)
    requires DistinctKeys(d)
    ensures DistinctKeys(Put(d, k, v))
  {
    if d != [] && d[0].0 != k {
      PutDistinct(d[1..], k, v);
      var r := Put(d, k, v);
      forall i, j | 0 <= i < j < |r| ensures r[i].0 != r[j].0 {
        if i == 0 {
          assert r[j] == Put(d[1..], k, v)[j - 1];
          if r[j].0 != k {
            assert r[j] in d[1..];
          }
        }
      }
    }
  }

  /** Assigning a key the dict does not hold appends it. */
  lemma {:induction false} PutAbsent<K, V>(d: Dict<K, V>, k: K, v: V)
    requires forall i :: 0 <= i < |d| ==> d[i].0 != k
    ensures Put(d, k, v) == d + [(k, v)]
  {
    if d != [] {
      PutAbsent(d[1..], k, v);
      assert d == [d[0]] + d[1..];
    }
  }
}
