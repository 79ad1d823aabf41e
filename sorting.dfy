// Python's stable `list.sort(key=..., reverse=...)`, as the cache listing
// uses it: an element moves ahead of another only when it must come strictly
// before it; elements that compare equal keep the order they had.
module Sorting {
  /**
   * `prec(a, b)`: `a` must come strictly before `b`. The orders `sort` handles
   * are strict weak orders: `prec` is asymmetric and "not before" is transitive.
   */
  ghost predicate StrictWeak<T(!new)>(prec: (T, T) -> bool) {
    (forall a, b :: prec(a, b) ==> !prec(b, a)) &&
    (forall a, b, c :: !prec(a, b) && !prec(b, c) ==> !prec(a, c))
  }

  /** No element is preceded by one it must come before. */
  predicate SortedBy<T>(s: seq<T>, prec: (T, T) -> bool) {
    forall i, j :: 0 <= i < j < |s| ==> !prec(s[j], s[i])
  }

  /** `x` placed after every element of `s` that it need not precede. */
  function Insert<T>(s: seq<T>, x: T, prec: (T, T) -> bool): (r: seq<T>)
    ensures multiset(r) == multiset(s) + multiset{x}
  {
    if s == [] || !prec(x, s[|s| - 1]) then s + [x]
    else
      var init := s[..|s| - 1];
      assert s == init + [s[|s| - 1]];
      Insert(init, x, prec) + [s[|s| - 1]]
  }

  /** The stable sort: each element in turn is inserted into the sorted prefix. */
  function StableSort<T>(xs: seq<T>, prec: (T, T) -> bool): (r: seq<T>)
    ensures multiset(r) == multiset(xs)
  {
    if xs == [] then []
    else
      var init := xs[..|xs| - 1];
      assert xs == init + [xs[|xs| - 1]];
      Insert(StableSort(init, prec), xs[|xs| - 1], prec)
  }

  lemma {:induction false} InsertSorted<T(!new)>(s: seq<T>, x: T, prec: (T, T) -> bool)
    requires StrictWeak(prec) && SortedBy(s, prec)
    ensures SortedBy(Insert(s, x, prec), prec)
  {
    if s == [] {
    } else if !prec(x, s[|s| - 1]) {
      var last := s[|s| - 1];
      var r := s + [x];
      forall i, j | 0 <= i < j < |r| ensures !prec(r[j], r[i]) {
        if j == |s| {
          assert !prec(last, s[i]) || i == |s| - 1;
        } else {
          assert r[i] == s[i] && r[j] == s[j];
        }
      }
    } else {
      var init := s[..|s| - 1];
      var last := s[|s| - 1];
      assert SortedBy(init, prec);
      InsertSorted(init, x, prec);
      var t := Insert(init, x, prec);
      var r := t + [last];
      forall i, j | 0 <= i < j < |r| ensures !prec(r[j], r[i]) {
        if j == |t| {
          assert r[i] in multiset(t);
          assert r[i] in multiset(init) + multiset{x};
          if r[i] != x {
            assert r[i] in init;
            var k :| 0 <= k < |init| && init[k] == r[i];
            assert s[k] == r[i];
          }
        } else {
          assert r[i] == t[i] && r[j] == t[j];
        }
      }
    }
  }

  /** The sort puts its result in order. */
  lemma {:induction false} StableSortSorted<T(!new)>(xs: seq<T>, prec: (T, T) -> bool)
    requires StrictWeak(prec)
    ensures SortedBy(StableSort(xs, prec), prec)
  {
    if xs != [] {
      StableSortSorted(xs[..|xs| - 1], prec);
      InsertSorted(StableSort(xs[..|xs| - 1], prec), xs[|xs| - 1], prec);
    }
  }

  /** Python's string order: code point by code point, a proper prefix first. */
  predicate LexLess(a: string, b: string) {
    if a == [] then b != []
    else if b == [] then false
    else if a[0] != b[0] then a[0] < b[0]
    else LexLess(a[1..], b[1..])
  }

  lemma {:induction false} LexAsymmetric(a: string, b: string)
    requires LexLess(a, b)
    ensures !LexLess(b, a)
  {
    if a != [] && b != [] && a[0] == b[0] {
      LexAsymmetric(a[1..], b[1..]);
    }
  }

  lemma {:induction false} LexSplit(a: string, b: string, c: string)
    requires LexLess(a, c)
    ensures LexLess(a, b) || LexLess(b, c)
  {
    if a != [] && b != [] && a[0] == b[0] && b[0] == c[0] {
      LexSplit(a[1..], b[1..], c[1..]);
    }
  }

  /** When no element must precede another, the sort leaves the list as it is. */
  lemma {:induction false} StableSortKeepsTies<T>(xs: seq<T>, prec: (T, T) -> bool)
    requires forall i, j :: 0 <= i < |xs| && 0 <= j < |xs| ==> !prec(xs[i], xs[j])
    ensures StableSort(xs, prec) == xs
  {
    if xs != [] {
      var init := xs[..|xs| - 1];
      StableSortKeepsTies(init, prec);
      if init != [] {
        assert !prec(xs[|xs| - 1], init[|init| - 1]);
      }
      assert init + [xs[|xs| - 1]] == xs;
    }
  }
}
