// Generic facts about the list-building loops the source writes over and
// over: keep-and-transform (`for x in xs: if ...: out.append(f(x))`) and
// keep-if (`[x for x in xs if p(x)]`).
module Seqs {
  import opened Wrappers

  /** The values `f` yields along `xs`, skipping the elements it rejects, in order. */
  function FilterMap<A, B>(xs: seq<A>, f: A -> Option<B>): (r: seq<B>)
    ensures |r| <= |xs|
  {
    if xs == [] then []
    else
      match f(xs[0])
      case Some(y) => [y] + FilterMap(xs[1..], f)
      case None => FilterMap(xs[1..], f)
  }

  lemma {:induction false} FilterMapAppend<A, B>(a: seq<A>, b: seq<A>, f: A -> Option<B>)
    ensures FilterMap(a + b, f) == FilterMap(a, f) + FilterMap(b, f)
  {
    if a != [] {
      assert (a + b)[1..] == a[1..] + b;
      FilterMapAppend(a[1..], b, f);
    } else {
      assert a + b == b;
    }
  }

  /** One more element: what the loop body appends. */
  lemma FilterMapSnoc<A, B>(a: seq<A>, x: A, f: A -> Option<B>)
    ensures FilterMap(a + [x], f) == FilterMap(a, f) + (if f(x).Some? then [f(x).value] else [])
  {
    FilterMapAppend(a, [x], f);
    assert [x][1..] == [];
  }

  lemma {:induction false} FilterMapMember<A, B>(xs: seq<A>, f: A -> Option<B>, y: B)
    ensures y in FilterMap(xs, f) <==> exists i :: 0 <= i < |xs| && f(xs[i]) == Some(y)
  {
    if xs != [] {
      FilterMapMember(xs[1..], f, y);
      if y in FilterMap(xs[1..], f) {
        var i :| 0 <= i < |xs[1..]| && f(xs[1..][i]) == Some(y);
        assert f(xs[i + 1]) == Some(y);
      }
      if exists i :: 0 <= i < |xs| && f(xs[i]) == Some(y) {
        var i :| 0 <= i < |xs| && f(xs[i]) == Some(y);
        if i > 0 { assert f(xs[1..][i - 1]) == Some(y); }
      }
    }
  }

  /** Outputs of elements at different places stay apart under `key` when the elements' outputs do. */
  lemma {:induction false} FilterMapApart<A, B, K>(xs: seq<A>, f: A -> Option<B>, key: B -> K)
    requires forall i, j :: 0 <= i < j < |xs| && f(xs[i]).Some? && f(xs[j]).Some? ==> key(f(xs[i]).value) != key(f(xs[j]).value)
    ensures forall p, q :: 0 <= p < q < |FilterMap(xs, f)| ==> key(FilterMap(xs, f)[p]) != key(FilterMap(xs, f)[q])
  {
    if xs != [] {
      var t := FilterMap(xs[1..], f);
      assert forall i, j :: 0 <= i < j < |xs[1..]| ==> xs[1..][i] == xs[i + 1] && xs[1..][j] == xs[j + 1];
      FilterMapApart(xs[1..], f, key);
      if f(xs[0]).Some? {
        var r := FilterMap(xs, f);
        assert r == [f(xs[0]).value] + t;
        forall q | 0 < q < |r| ensures key(r[0]) != key(r[q]) {
          FilterMapMember(xs[1..], f, t[q - 1]);
          var i :| 0 <= i < |xs[1..]| && f(xs[1..][i]) == Some(t[q - 1]);
          assert xs[1..][i] == xs[i + 1];
        }
        forall p, q | 0 < p < q < |r| ensures key(r[p]) != key(r[q]) {
          assert r[p] == t[p - 1] && r[q] == t[q - 1];
        }
      }
    }
  }

  /** Every element `f` accepts contributes, so the output is as long as the number accepted. */
  function CountIf<A>(xs: seq<A>, p: A -> bool): (n: nat)
    ensures n <= |xs|
  {
    if xs == [] then 0 else (if p(xs[0]) then 1 else 0) + CountIf(xs[1..], p)
  }

  lemma {:induction false} CountIfAppend<A>(a: seq<A>, b: seq<A>, p: A -> bool)
    ensures CountIf(a + b, p) == CountIf(a, p) + CountIf(b, p)
  {
    if a != [] {
      assert (a + b)[1..] == a[1..] + b;
      CountIfAppend(a[1..], b, p);
    } else {
      assert a + b == b;
    }
  }

  /** `[x for x in xs if p(x)]`. */
  function Filter<A>(xs: seq<A>, p: A -> bool): (r: seq<A>)
    ensures |r| == CountIf(xs, p)
    ensures forall i :: 0 <= i < |r| ==> p(r[i])
    ensures forall i :: 0 <= i < |r| ==> r[i] in xs
    ensures forall i :: 0 <= i < |xs| && p(xs[i]) ==> xs[i] in r
  {
    if xs == [] then [] else (if p(xs[0]) then [xs[0]] else []) + Filter(xs[1..], p)
  }

  lemma {:induction false} FilterAppend<A>(a: seq<A>, b: seq<A>, p: A -> bool)
    ensures Filter(a + b, p) == Filter(a, p) + Filter(b, p)
  {
    if a != [] {
      assert (a + b)[1..] == a[1..] + b;
      FilterAppend(a[1..], b, p);
    } else {
      assert a + b == b;
    }
  }

  /** Keeping the elements that all pass keeps the list. */
  lemma {:induction false} FilterAll<A>(xs: seq<A>, p: A -> bool)
    requires forall i :: 0 <= i < |xs| ==> p(xs[i])
    ensures Filter(xs, p) == xs
  {
    if xs != [] {
      FilterAll(xs[1..], p);
    }
  }

  /** `[f(x) for x in xs]`. */
  function Map<A, B>(xs: seq<A>, f: A -> B): (r: seq<B>)
    ensures |r| == |xs|
    ensures forall i :: 0 <= i < |xs| ==> r[i] == f(xs[i])
  {
    if xs == [] then [] else [f(xs[0])] + Map(xs[1..], f)
  }

  lemma {:induction false} MapAppend<A, B>(a: seq<A>, b: seq<A>, f: A -> B)
    ensures Map(a + b, f) == Map(a, f) + Map(b, f)
  {
    if a != [] {
      assert (a + b)[1..] == a[1..] + b;
      MapAppend(a[1..], b, f);
    } else {
      assert a + b == b;
    }
  }

  /** The concatenation of a list of lists, as repeated `extend` builds it. */
  function Flatten<A>(xss: seq<seq<A>>): seq<A> {
    if xss == [] then [] else xss[0] + Flatten(xss[1..])
  }

  lemma {:induction false} FlattenAppend<A>(a: seq<seq<A>>, b: seq<seq<A>>)
    ensures Flatten(a + b) == Flatten(a) + Flatten(b)
  {
    if a != [] {
      assert (a + b)[1..] == a[1..] + b;
      FlattenAppend(a[1..], b);
    } else {
      assert a + b == b;
    }
  }

  lemma FlattenSnoc<A>(a: seq<seq<A>>, x: seq<A>)
    ensures Flatten(a + [x]) == Flatten(a) + x
  {
    FlattenAppend(a, [x]);
    assert [x][1..] == [];
  }

  /** The sum of a list of naturals. */
  function Sum(xs: seq<nat>): nat {
    if xs == [] then 0 else xs[0] + Sum(xs[1..])
  }

  lemma {:induction false} SumAppend(a: seq<nat>, b: seq<nat>)
    ensures Sum(a + b) == Sum(a) + Sum(b)
  {
    if a != [] {
      assert (a + b)[1..] == a[1..] + b;
      SumAppend(a[1..], b);
    } else {
      assert a + b == b;
    }
  }
  /** `for x in xs: out += f(x)`: the pieces `f` gives along `xs`, concatenated in order. */
  function FlatMap<A, B>(xs: seq<A>, f: A -> seq<B>): seq<B> {
    if xs == [] then [] else FlatMap(xs[..|xs| - 1], f) + f(xs[|xs| - 1])
  }

  lemma AppendAssoc<A>(a: seq<A>, b: seq<A>, c: seq<A>)
    ensures a + b + c == a + (b + c)
  {
  }

  /** A list of four known elements, stated once for every element type. */
  lemma FlatMapSingle<A, B>(x: A, f: A -> seq<B>)
    ensures FlatMap([x], f) == f(x)
  {
    assert [x][..0] == [];
  }

  lemma EmptyLeft<A>(a: seq<A>)
    ensures [] + a == a
  {
  }

  lemma FourElements<A>(r: seq<A>, a: A, b: A, c: A, d: A)
    requires |r| == 4 && r[0] == a && r[1] == b && r[2] == c && r[3] == d
    ensures r == [a, b, c, d]
  {
  }

  lemma MapCompose<A, B, C>(xs: seq<A>, f: A -> B, g: B -> C, h: A -> C)
    requires forall i :: 0 <= i < |xs| ==> g(f(xs[i])) == h(xs[i])
    ensures Map(Map(xs, f), g) == Map(xs, h)
  {
  }

  lemma MapIdentity<A>(xs: seq<A>, f: A -> A)
    requires forall i :: 0 <= i < |xs| ==> f(xs[i]) == xs[i]
    ensures Map(xs, f) == xs
  {
  }

  /** A whole-length prefix is the list itself. */
  lemma TakeAll<A>(xs: seq<A>)
    ensures xs[..|xs|] == xs
  {
  }

  /** A non-empty list is its front followed by its last element. */
  lemma InitLast<A>(xs: seq<A>)
    requires xs != []
    ensures xs == xs[..|xs| - 1] + [xs[|xs| - 1]]
  {
  }

  lemma MapStep<A, B>(xs: seq<A>, i: nat, f: A -> B)
    requires i < |xs|
    ensures Map(xs[..i + 1], f) == Map(xs[..i], f) + [f(xs[i])]
  {
    assert xs[..i + 1] == xs[..i] + [xs[i]];
    MapAppend(xs[..i], [xs[i]], f);
  }

  lemma FlatMapStep<A, B>(xs: seq<A>, i: nat, f: A -> seq<B>)
    requires i < |xs|
    ensures FlatMap(xs[..i + 1], f) == FlatMap(xs[..i], f) + f(xs[i])
  {
    assert xs[..i + 1][..i] == xs[..i];
  }

  lemma {:induction false} FlatMapAppend<A, B>(a: seq<A>, b: seq<A>, f: A -> seq<B>)
    ensures FlatMap(a + b, f) == FlatMap(a, f) + FlatMap(b, f)
    decreases |b|
  {
    if b == [] {
      assert a + b == a;
    } else {
      var init := b[..|b| - 1];
      assert (a + b)[..|a + b| - 1] == a + init;
      FlatMapAppend(a, init, f);
    }
  }

  // ---------------------------------------------------------------------
  // Counting dictionaries: `d[k] = d.get(k, 0) + 1` in a loop, the items
  // kept in insertion order
  // ---------------------------------------------------------------------

  function Tick<K(==)>(d: seq<(K, nat)>, k: K): seq<(K, nat)> {
    if d == [] then [(k, 1)]
    else if d[0].0 == k then [(k, d[0].1 + 1)] + d[1..]
    else [d[0]] + Tick(d[1..], k)
  }

  /** The counter of the keys `xs` yields, ticked one by one. */
  function Counts<K(==)>(xs: seq<K>): seq<(K, nat)> {
    if xs == [] then [] else Tick(Counts(xs[..|xs| - 1]), xs[|xs| - 1])
  }

  /** `d.get(k, 0)`. */
  function CountOf<K(==)>(d: seq<(K, nat)>, k: K): nat {
    if d == [] then 0 else if d[0].0 == k then d[0].1 else CountOf(d[1..], k)
  }

  function CountKeys<K>(d: seq<(K, nat)>): seq<K> {
    if d == [] then [] else [d[0].0] + CountKeys(d[1..])
  }

  /** `sum(d.values())`. */
  function CountTotal<K>(d: seq<(K, nat)>): nat {
    if d == [] then 0 else d[0].1 + CountTotal(d[1..])
  }

  lemma {:induction false} TickCount<K>(d: seq<(K, nat)>, k: K, q: K)
    ensures CountOf(Tick(d, k), q) == CountOf(d, q) + (if q == k then 1 else 0)
    ensures CountTotal(Tick(d, k)) == CountTotal(d) + 1
    ensures CountKeys(Tick(d, k)) == if k in CountKeys(d) then CountKeys(d) else CountKeys(d) + [k]
  {
    if d != [] && d[0].0 != k {
      TickCount(d[1..], k, q);
    }
  }

  lemma CountsStep<K>(xs: seq<K>, i: nat)
    requires i < |xs|
    ensures Counts(xs[..i + 1]) == Tick(Counts(xs[..i]), xs[i])
  {
    assert xs[..i + 1][..i] == xs[..i];
  }

  /** Each key is counted as often as it occurs, and the counts add up to the number of keys ticked. */
  lemma {:induction false} CountsSpec<K>(xs: seq<K>, k: K)
    ensures CountOf(Counts(xs), k) == multiset(xs)[k]
    ensures CountTotal(Counts(xs)) == |xs|
  {
    if xs != [] {
      var init := xs[..|xs| - 1];
      CountsSpec(init, k);
      TickCount(Counts(init), xs[|xs| - 1], k);
      assert xs == init + [xs[|xs| - 1]];
    }
  }

  /** The keys are the distinct keys ticked, each listed once, in order of first occurrence. */
  lemma {:induction false} CountsKeys<K>(xs: seq<K>)
    ensures forall i, j :: 0 <= i < j < |CountKeys(Counts(xs))| ==> CountKeys(Counts(xs))[i] != CountKeys(Counts(xs))[j]
    ensures forall k :: k in CountKeys(Counts(xs)) <==> k in xs
  {
    if xs != [] {
      var init := xs[..|xs| - 1];
      var x := xs[|xs| - 1];
      CountsKeys(init);
      TickCount(Counts(init), x, x);
      assert xs == init + [x];
    }
  }
}
