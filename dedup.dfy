// The seen-set loop that removes repeated ingredients by `ingredient_name`
// before a report is rendered (pdf_service.py `generate_pdf_report` and
// `generate_markdown`, process_dna.py `generate_pdf`).
module Dedup {
  /** The names of the items of `xs`. */
  function NamesOf<T>(xs: seq<T>, name: T -> string): set<string> {
    set i | 0 <= i < |xs| :: name(xs[i])
  }

  /** What the loop has appended after reading `xs`: every item whose name was not seen before it. */
  function Dedup<T>(xs: seq<T>, name: T -> string): (r: seq<T>)
    ensures |r| <= |xs|
  {
    if xs == [] then []
    else
      var init := xs[..|xs| - 1];
      var x := xs[|xs| - 1];
      Dedup(init, name) + (if name(x) in NamesOf(init, name) then [] else [x])
  }

  /** `seen = set(); for x in xs: if x.name not in seen: seen.add(x.name); unique.append(x)`. */
  method DedupByName<T>(xs: seq<T>, name: T -> string) returns (unique: seq<T>)
    ensures unique == Dedup(xs, name)
  {
    var seen: set<string> := {};
    unique := [];
    var i := 0;
    while i < |xs|
      invariant 0 <= i <= |xs|
      invariant seen == NamesOf(xs[..i], name)
      invariant unique == Dedup(xs[..i], name)
    {
      var x := xs[i];
      assert xs[..i + 1][..i] == xs[..i];
      assert NamesOf(xs[..i + 1], name) == NamesOf(xs[..i], name) + {name(x)} by {
        NamesOfSnoc(xs[..i], x, name);
        assert xs[..i + 1] == xs[..i] + [x];
      }
      if name(x) !in seen {
        seen := seen + {name(x)};
        unique := unique + [x];
      } else {
        seen := seen + {name(x)};
      }
      i := i + 1;
    }
    assert xs[..i] == xs;
  }

  lemma NamesOfSnoc<T>(xs: seq<T>, x: T, name: T -> string)
    ensures NamesOf(xs + [x], name) == NamesOf(xs, name) + {name(x)}
  {
    var s := xs + [x];
    assert name(x) == name(s[|xs|]);
    forall n | n in NamesOf(s, name) ensures n in NamesOf(xs, name) + {name(x)} {
      var i :| 0 <= i < |s| && name(s[i]) == n;
      if i < |xs| {
        assert s[i] == xs[i];
      }
    }
    forall n | n in NamesOf(xs, name) ensures n in NamesOf(s, name) {
      var i :| 0 <= i < |xs| && name(xs[i]) == n;
      assert s[i] == xs[i];
    }
  }

  predicate UniqueNames<T>(xs: seq<T>, name: T -> string) {
    forall p, q :: 0 <= p < q < |xs| ==> name(xs[p]) != name(xs[q])
  }

  /** The kept items carry every name of the input, and no other. */
  lemma {:induction false} DedupNames<T>(xs: seq<T>, name: T -> string)
    ensures NamesOf(Dedup(xs, name), name) == NamesOf(xs, name)
  {
    if xs != [] {
      var init := xs[..|xs| - 1];
      var x := xs[|xs| - 1];
      DedupNames(init, name);
      assert xs == init + [x];
      NamesOfSnoc(init, x, name);
      if name(x) !in NamesOf(init, name) {
        NamesOfSnoc(Dedup(init, name), x, name);
      } else {
        assert Dedup(xs, name) == Dedup(init, name);
      }
    }
  }

  /** No two kept items share a name. */
  lemma {:induction false} DedupUnique<T>(xs: seq<T>, name: T -> string)
    ensures UniqueNames(Dedup(xs, name), name)
  {
    if xs != [] {
      var init := xs[..|xs| - 1];
      var x := xs[|xs| - 1];
      DedupUnique(init, name);
      DedupNames(init, name);
      var d := Dedup(init, name);
      if name(x) !in NamesOf(init, name) {
        var r := d + [x];
        forall p, q | 0 <= p < q < |r| ensures name(r[p]) != name(r[q]) {
          if q == |d| {
            assert r[p] == d[p];
            assert name(d[p]) in NamesOf(d, name);
          } else {
            assert r[p] == d[p] && r[q] == d[q];
          }
        }
      }
    }
  }

  /** The index of the first item with a given name. */
  predicate FirstWithName<T>(xs: seq<T>, name: T -> string, i: int) {
    0 <= i < |xs| && forall j :: 0 <= j < i ==> name(xs[j]) != name(xs[i])
  }

  /** The positions of the first item of each name, in increasing order. */
  function FirstIndices<T>(xs: seq<T>, name: T -> string): (r: seq<int>)
    ensures forall k :: 0 <= k < |r| ==> 0 <= r[k] < |xs|
    ensures forall k, l :: 0 <= k < l < |r| ==> r[k] < r[l]
  {
    if xs == [] then []
    else
      var init := xs[..|xs| - 1];
      FirstIndices(init, name) + (if name(xs[|xs| - 1]) in NamesOf(init, name) then [] else [|init|])
  }

  /** The kept items are the input items at the first-occurrence positions, in that order. */
  lemma {:induction false} DedupAtFirstIndices<T>(xs: seq<T>, name: T -> string)
    ensures |Dedup(xs, name)| == |FirstIndices(xs, name)|
    ensures forall k :: 0 <= k < |Dedup(xs, name)| ==> Dedup(xs, name)[k] == xs[FirstIndices(xs, name)[k]]
  {
    if xs != [] {
      var init := xs[..|xs| - 1];
      DedupAtFirstIndices(init, name);
      var d := Dedup(init, name);
      var f := FirstIndices(init, name);
      forall k | 0 <= k < |d| ensures d[k] == xs[f[k]] {
        assert init[f[k]] == xs[f[k]];
      }
    }
  }

  /** A position is listed exactly when its item is the first with its name. */
  lemma {:induction false} FirstIndicesSpec<T>(xs: seq<T>, name: T -> string, i: int)
    ensures i in FirstIndices(xs, name) <==> FirstWithName(xs, name, i)
  {
    if xs != [] {
      var init := xs[..|xs| - 1];
      var x := xs[|xs| - 1];
      var n := |init|;
      FirstIndicesSpec(init, name, i);
      if 0 <= i < n {
        assert FirstWithName(xs, name, i) <==> FirstWithName(init, name, i) by {
          assert forall j :: 0 <= j <= i ==> xs[j] == init[j];
        }
      }
      if i == n {
        assert FirstWithName(xs, name, n) <==> name(x) !in NamesOf(init, name) by {
          if name(x) in NamesOf(init, name) {
            var j :| 0 <= j < n && name(init[j]) == name(x);
            assert xs[j] == init[j];
          } else {
            forall j | 0 <= j < n ensures name(xs[j]) != name(xs[n]) {
              assert xs[j] == init[j];
            }
          }
        }
      }
    }
  }

  /** A list whose names are already distinct is left as it is. */
  lemma {:induction false} DedupOfUnique<T>(xs: seq<T>, name: T -> string)
    requires UniqueNames(xs, name)
    ensures Dedup(xs, name) == xs
  {
    if xs != [] {
      var init := xs[..|xs| - 1];
      var x := xs[|xs| - 1];
      assert UniqueNames(init, name);
      DedupOfUnique(init, name);
      assert name(x) !in NamesOf(init, name) by {
        forall j | 0 <= j < |init| ensures name(init[j]) != name(x) {
          assert xs[j] == init[j];
        }
      }
      assert xs == init + [x];
    }
  }

  /** Deduplicating twice gives what deduplicating once gives. */
  lemma DedupIdempotent<T>(xs: seq<T>, name: T -> string)
    ensures Dedup(Dedup(xs, name), name) == Dedup(xs, name)
  {
    DedupUnique(xs, name);
    DedupOfUnique(Dedup(xs, name), name);
  }
}
