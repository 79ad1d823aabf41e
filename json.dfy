// JSON documents as Python's `json` module sees them: objects are member
// lists in insertion order, and `json.dumps(..., sort_keys=True)` first puts
// every object's members in key order. The text encoding itself (spacing,
// escapes) is not modelled: the services only feed it to a digest.
module JsonModel {
  import opened Wrappers
  import Sorting

  datatype Json =
    | JNull
    | JBool(b: bool)
    | JInt(i: int)
    | JStr(s: string)
    | JArr(items: seq<Json>)
    | JObj(members: seq<(string, Json)>)

  type Member = (string, Json)

  /** Python truthiness of a decoded value: `None`, `False`, `0` and empty containers are false. */
  predicate Truthy(j: Json) {
    match j
    case JNull => false
    case JBool(b) => b
    case JInt(i) => i != 0
    case JStr(s) => s != []
    case JArr(items) => items != []
    case JObj(ms) => ms != []
  }

  /** `dict.get(key)`: the value of the member named `key`. */
  function Get(ms: seq<Member>, key: string): (r: Option<Json>)
    ensures r.Some? <==> exists i :: 0 <= i < |ms| && ms[i].0 == key
    ensures r.Some? ==> (key, r.value) in ms
  {
    if ms == [] then None
    else if ms[0].0 == key then Some(ms[0].1)
    else
      var r := Get(ms[1..], key);
      assert forall i :: 1 <= i < |ms| ==> ms[i] == ms[1..][i - 1];
      r
  }

  /** A Python dict: no key occurs twice. */
  predicate DistinctKeys(ms: seq<Member>) {
    forall i, j :: 0 <= i < |ms| && 0 <= j < |ms| && ms[i].0 == ms[j].0 ==> i == j
  }

  /** The order `sort_keys` puts members in: by key, as Python compares strings. */
  predicate KeyBefore(a: Member, b: Member) {
    Sorting.LexLess(a.0, b.0)
  }

  /** Every object of the document with its members in key order. */
  function Canonical(j: Json): Json {
    match j
    case JArr(items) => JArr(seq(|items|, i requires 0 <= i < |items| => Canonical(items[i])))
    case JObj(ms) =>
      JObj(Sorting.StableSort(seq(|ms|, i requires 0 <= i < |ms| => (ms[i].0, Canonical(ms[i].1))), KeyBefore))
    case _ => j
  }

  /** The members of an object with their values in canonical form, before the sort. */
  function Recanon(ms: seq<Member>): (r: seq<Member>)
    ensures |r| == |ms| && forall i :: 0 <= i < |ms| ==> r[i] == (ms[i].0, Canonical(ms[i].1))
  {
    seq(|ms|, i requires 0 <= i < |ms| => (ms[i].0, Canonical(ms[i].1)))
  }

  /** What the document's digest is taken over: `json.dumps(data, sort_keys=True)`. */
  function SortedDump(data: Json, dumps: Json -> string): string {
    dumps(Canonical(data))
  }

  // ---------------------------------------------------------------------------
  // String order
  // ---------------------------------------------------------------------------

  lemma {:induction false} LexTotal(a: string, b: string)
    ensures a == b || Sorting.LexLess(a, b) || Sorting.LexLess(b, a)
  {
    if a != [] && b != [] && a[0] == b[0] {
      LexTotal(a[1..], b[1..]);
      assert a == [a[0]] + a[1..] && b == [b[0]] + b[1..];
    }
  }

  lemma LexIrreflexive(a: string)
    ensures !Sorting.LexLess(a, a)
  {
    if Sorting.LexLess(a, a) {
      Sorting.LexAsymmetric(a, a);
    }
  }

  lemma LexNotBoth(a: string, b: string)
    ensures !(Sorting.LexLess(a, b) && Sorting.LexLess(b, a))
  {
    if Sorting.LexLess(a, b) {
      Sorting.LexAsymmetric(a, b);
    }
  }

  lemma KeyBeforeStrictWeak()
    ensures Sorting.StrictWeak(KeyBefore)
  {
    forall a: Member, b: Member | KeyBefore(a, b) ensures !KeyBefore(b, a) {
      Sorting.LexAsymmetric(a.0, b.0);
    }
    forall a: Member, b: Member, c: Member | !KeyBefore(a, b) && !KeyBefore(b, c) ensures !KeyBefore(a, c) {
      if KeyBefore(a, c) {
        Sorting.LexSplit(a.0, b.0, c.0);
      }
    }
  }

  // ---------------------------------------------------------------------------
  // sort_keys
  // ---------------------------------------------------------------------------

  /** Members in strictly increasing key order. */
  predicate StrictlySorted(ms: seq<Member>) {
    forall i, j :: 0 <= i < j < |ms| ==> Sorting.LexLess(ms[i].0, ms[j].0)
  }

  /** A member list without repeated keys holds each member once. */
  lemma {:induction false} DistinctOnce(ms: seq<Member>, x: Member)
    requires DistinctKeys(ms)
    ensures multiset(ms)[x] <= 1
  {
    if ms != [] {
      var rest := ms[1..];
      assert ms == [ms[0]] + rest;
      assert DistinctKeys(rest) by {
        forall i, j | 0 <= i < |rest| && 0 <= j < |rest| && rest[i].0 == rest[j].0 ensures i == j {
          assert ms[i + 1].0 == ms[j + 1].0;
        }
      }
      DistinctOnce(rest, x);
      assert forall k :: 0 <= k < |rest| ==> rest[k] != ms[0] by {
        forall k | 0 <= k < |rest| ensures rest[k] != ms[0] {
          assert ms[k + 1] == rest[k];
        }
      }
      assert ms[0] !in rest;
    }
  }

  /** Two equal entries at two places of a list are counted twice. */
  lemma TwiceCounted(r: seq<Member>, i: nat, j: nat)
    requires i < j < |r|
    ensures r[i] == r[j] ==> multiset(r)[r[i]] >= 2
  {
    var x := r[i];
    assert r == r[..j] + [r[j]] + r[j + 1..];
    assert r[..j][i] == x;
    assert x in multiset(r[..j]);
    assert multiset(r) == multiset(r[..j]) + multiset{r[j]} + multiset(r[j + 1..]);
  }

  /** A key-sorted rearrangement of a member list without repeated keys is strictly sorted. */
  lemma SortedDistinctStrict(xs: seq<Member>, r: seq<Member>)
    requires DistinctKeys(xs) && multiset(r) == multiset(xs) && Sorting.SortedBy(r, KeyBefore)
    ensures StrictlySorted(r)
  {
    forall i, j | 0 <= i < j < |r| ensures Sorting.LexLess(r[i].0, r[j].0) {
      assert r[i] in multiset(xs) && r[j] in multiset(xs);
      var p :| 0 <= p < |xs| && xs[p] == r[i];
      var q :| 0 <= q < |xs| && xs[q] == r[j];
      TwiceCounted(r, i, j);
      DistinctOnce(xs, r[i]);
      LexTotal(r[i].0, r[j].0);
    }
  }

  /** Two strictly key-sorted lists with the same members are the same list. */
  lemma {:induction false} StrictlySortedUnique(a: seq<Member>, b: seq<Member>)
    requires StrictlySorted(a) && StrictlySorted(b)
    requires forall x :: x in a <==> x in b
    ensures a == b
    decreases |a|
  {
    if a != [] {
      assert a[0] in a;
    }
    if b != [] {
      assert b[0] in b;
    }
    if a != [] {
      var k :| 0 <= k < |b| && b[k] == a[0];
      var m :| 0 <= m < |a| && a[m] == b[0];
      LexNotBoth(a[0].0, b[0].0);
      assert a[0] == b[0];
      var a', b' := a[1..], b[1..];
      forall x ensures x in a' <==> x in b' {
        LexIrreflexive(x.0);
        assert x in a' <==> x in a && x != a[0] by {
          LexIrreflexive(a[0].0);
          assert a == [a[0]] + a';
          assert forall t :: 0 <= t < |a'| ==> a'[t] == a[t + 1];
        }
        assert x in b' <==> x in b && x != b[0] by {
          LexIrreflexive(b[0].0);
          assert b == [b[0]] + b';
          assert forall t :: 0 <= t < |b'| ==> b'[t] == b[t + 1];
        }
      }
      assert StrictlySorted(a') by {
        forall i, j | 0 <= i < j < |a'| ensures Sorting.LexLess(a'[i].0, a'[j].0) {
          assert a'[i] == a[i + 1] && a'[j] == a[j + 1];
        }
      }
      assert StrictlySorted(b') by {
        forall i, j | 0 <= i < j < |b'| ensures Sorting.LexLess(b'[i].0, b'[j].0) {
          assert b'[i] == b[i + 1] && b'[j] == b[j + 1];
        }
      }
      StrictlySortedUnique(a', b');
      assert a == [a[0]] + a' && b == [b[0]] + b';
    }
  }

  lemma CanonicalObject(ms: seq<Member>)
    ensures Canonical(JObj(ms)) == JObj(Sorting.StableSort(Recanon(ms), KeyBefore))
  {
  }

  /** Recanonicalising keeps keys in place, so it keeps them distinct. */
  lemma RecanonDistinct(ms: seq<Member>)
    requires DistinctKeys(ms)
    ensures DistinctKeys(Recanon(ms))
  {
  }

  /** The members of an object after recanonicalising depend only on its members, not their order. */
  lemma RecanonSameMembers(ms1: seq<Member>, ms2: seq<Member>)
    requires forall p :: p in ms1 <==> p in ms2
    ensures forall x :: x in Recanon(ms1) <==> x in Recanon(ms2)
  {
    var r1, r2 := Recanon(ms1), Recanon(ms2);
    forall x | x in r1 ensures x in r2 {
      var i :| 0 <= i < |r1| && r1[i] == x;
      assert ms1[i] in ms2;
      var j :| 0 <= j < |ms2| && ms2[j] == ms1[i];
      assert r2[j] == x;
    }
    forall x | x in r2 ensures x in r1 {
      var j :| 0 <= j < |r2| && r2[j] == x;
      assert ms2[j] in ms1;
      var i :| 0 <= i < |ms1| && ms1[i] == ms2[j];
      assert r1[i] == x;
    }
  }

  /** The sorted members of an object without repeated keys are in strictly increasing key order. */
  lemma SortedMembersStrict(ms: seq<Member>)
    requires DistinctKeys(ms)
    ensures StrictlySorted(Sorting.StableSort(Recanon(ms), KeyBefore))
  {
    KeyBeforeStrictWeak();
    var xs := Recanon(ms);
    Sorting.StableSortSorted(xs, KeyBefore);
    RecanonDistinct(ms);
    SortedDistinctStrict(xs, Sorting.StableSort(xs, KeyBefore));
  }

  /** The canonical form of an object lists its members in strictly increasing key order. */
  lemma CanonicalStrictlySorted(ms: seq<Member>)
    requires DistinctKeys(ms)
    ensures Canonical(JObj(ms)).JObj? && StrictlySorted(Canonical(JObj(ms)).members)
  {
    CanonicalObject(ms);
    SortedMembersStrict(ms);
  }

  /**
   * `sort_keys=True` makes the dump independent of insertion order: two dicts
   * with the same items (each key once) have the same canonical form.
   */
  lemma SameItemsSameCanonical(ms1: seq<Member>, ms2: seq<Member>)
    requires DistinctKeys(ms1) && DistinctKeys(ms2)
    requires forall p :: p in ms1 <==> p in ms2
    ensures Canonical(JObj(ms1)) == Canonical(JObj(ms2))
  {
    var s1 := Sorting.StableSort(Recanon(ms1), KeyBefore);
    var s2 := Sorting.StableSort(Recanon(ms2), KeyBefore);
    assert s1 == s2 by {
      SortedMembersStrict(ms1);
      SortedMembersStrict(ms2);
      RecanonSameMembers(ms1, ms2);
      assert multiset(s1) == multiset(Recanon(ms1)) && multiset(s2) == multiset(Recanon(ms2));
      forall x ensures x in s1 <==> x in s2 {
        assert x in s1 <==> x in multiset(s1);
        assert x in s2 <==> x in multiset(s2);
        assert x in Recanon(ms1) <==> x in multiset(Recanon(ms1));
        assert x in Recanon(ms2) <==> x in multiset(Recanon(ms2));
      }
      StrictlySortedUnique(s1, s2);
    }
    CanonicalObject(ms1);
    CanonicalObject(ms2);
  }

  /** Sorting the keys keeps the members: with values in canonical form, the same key set holds. */
  lemma CanonicalKeepsMembers(ms: seq<Member>)
    ensures Canonical(JObj(ms)).JObj?
    ensures |Canonical(JObj(ms)).members| == |ms|
    ensures forall p :: p in ms ==> (p.0, Canonical(p.1)) in Canonical(JObj(ms)).members
  {
    CanonicalObject(ms);
    var xs := Recanon(ms);
    var s := Sorting.StableSort(xs, KeyBefore);
    assert |s| == |multiset(s)| == |multiset(xs)| == |xs|;
    forall p | p in ms ensures (p.0, Canonical(p.1)) in s {
      var i :| 0 <= i < |ms| && ms[i] == p;
      assert xs[i] == (p.0, Canonical(p.1));
      assert xs[i] in multiset(s);
    }
  }
}
