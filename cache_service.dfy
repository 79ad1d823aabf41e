// cache_service.py: inspection and cleaning of the cache directory that
// CacheStore models. A directory listing (`Path.glob`) is the sequence of
// file names the directory yields, in the order it yields them.
module CacheService {
  import opened Wrappers
  import opened CacheStore
  import Seqs
  import Sorting
  import PyStr

  const MiB: real := 1048576.0

  // ---------------------------------------------------------------------------
  // File names: `Path.stem`, `Path.suffix` and the glob patterns
  // ---------------------------------------------------------------------------

  /** `name.rfind('.')`: the position of the last dot, or -1. */
  function RFindDot(name: string): (i: int)
    ensures -1 <= i < |name|
    ensures i >= 0 ==> name[i] == '.'
    ensures forall k :: i < k < |name| ==> name[k] != '.'
  {
    if name == [] then -1
    else if name[|name| - 1] == '.' then |name| - 1
    else RFindDot(name[..|name| - 1])
  }

  /** `Path.suffix` is non-empty: the last dot is neither the first nor the last character. */
  predicate HasSuffix(name: string) {
    0 < RFindDot(name) < |name| - 1
  }

  /** `Path.stem`. */
  function Stem(name: string): string {
    if HasSuffix(name) then name[..RFindDot(name)] else name
  }

  /** `Path.suffix.lstrip('.')`: what follows the last dot, or "" when there is no suffix. */
  function FormatOf(name: string): string {
    if HasSuffix(name) then name[RFindDot(name) + 1..] else ""
  }

  /** The file `get_cache_metadata(stem, format)` describes for a listed name. */
  function EntryPath(name: string): string {
    CachePath(Stem(name), FormatOf(name))
  }

  /** A name with a suffix is described by its own file; any other by the name with a dot appended. */
  lemma EntryPathShape(name: string)
    ensures EntryPath(name) == if HasSuffix(name) then name else name + "."
  {
    if HasSuffix(name) {
      var i := RFindDot(name);
      assert name == name[..i] + "." + name[i + 1..];
    } else {
      assert name + "." + "" == name + ".";
    }
  }

  /** Different names are described by different files. */
  lemma EntryPathInjective(a: string, b: string)
    requires a != b
    ensures EntryPath(a) != EntryPath(b)
  {
    EntryPathShape(a);
    EntryPathShape(b);
    if HasSuffix(a) && !HasSuffix(b) {
      assert a[|a| - 1] != '.';
      assert (b + ".")[|b|] == '.';
    } else if !HasSuffix(a) && HasSuffix(b) {
      assert b[|b| - 1] != '.';
      assert (a + ".")[|a|] == '.';
    } else if !HasSuffix(a) && !HasSuffix(b) {
      assert (a + ".")[..|a|] == a && (b + ".")[..|b|] == b;
    }
  }

  /** `cache_dir.glob(pattern)` keeps `name`: `*.{format_type}` when a format is given, else `*.*`. */
  predicate Selected(name: string, formatType: Option<string>) {
    if formatType.Some? && formatType.value != "" then PyStr.EndsWith(name, "." + formatType.value)
    else '.' in name
  }

  /** A listing of the directory: every file once, nothing else. */
  predicate Listing(dir: Dir, listing: seq<string>) {
    (forall i, j :: 0 <= i < j < |listing| ==> listing[i] != listing[j]) &&
    (forall n :: n in listing ==> n in dir) && (forall n :: n in dir ==> n in listing)
  }

  // ---------------------------------------------------------------------------
  // list_cache_files
  // ---------------------------------------------------------------------------

  /** What the loop of `list_cache_files` appends for one listed name. */
  function ListedEntry<D>(dir: Dir, codec: Codec<D>, formatType: Option<string>, now: int): string -> Option<Metadata> {
    name => if Selected(name, formatType) then MetadataOf(dir, codec, Stem(name), FormatOf(name), now) else None
  }

  /** The metadata collected along the listing, before sorting. */
  function Collected<D>(dir: Dir, codec: Codec<D>, listing: seq<string>, formatType: Option<string>, now: int): seq<Metadata> {
    Seqs.FilterMap(listing, ListedEntry(dir, codec, formatType, now))
  }

  /** `key=modified_at, reverse=True`: a later modification comes first. */
  predicate NewerFirst(a: Metadata, b: Metadata) {
    a.modifiedAt > b.modifiedAt
  }

  function NewestFirst(ms: seq<Metadata>): seq<Metadata> {
    Sorting.StableSort(ms, NewerFirst)
  }

  /** `list_cache_files`. */
  method ListCacheFiles<D>(store: Store<D>, listing: seq<string>, formatType: Option<string>, now: int)
    returns (files: seq<Metadata>)
    ensures files == NewestFirst(Collected(store.files, store.codec, listing, formatType, now))
  {
    var found: seq<Metadata> := [];
    var i := 0;
    while i < |listing|
      invariant 0 <= i <= |listing|
      invariant found == Collected(store.files, store.codec, listing[..i], formatType, now)
    {
      var name := listing[i];
      assert listing[..i + 1] == listing[..i] + [name];
      Seqs.FilterMapSnoc(listing[..i], name, ListedEntry(store.files, store.codec, formatType, now));
      if Selected(name, formatType) {
        var m := MetadataOf(store.files, store.codec, Stem(name), FormatOf(name), now);
        if m.Some? {
          found := found + [m.value];
        }
      }
      i := i + 1;
    }
    assert listing[..i] == listing;
    files := NewestFirst(found);
  }

  /** The file a metadata record describes. */
  function PathOf(m: Metadata): string {
    CachePath(m.fileHash, m.format)
  }

  lemma NewerFirstIsStrictWeak()
    ensures Sorting.StrictWeak(NewerFirst)
  {
  }

  /** The listing comes newest first, and holds exactly what was collected. */
  lemma NewestFirstOrdered(ms: seq<Metadata>)
    ensures multiset(NewestFirst(ms)) == multiset(ms)
    ensures forall i, j :: 0 <= i < j < |NewestFirst(ms)| ==> NewestFirst(ms)[i].modifiedAt >= NewestFirst(ms)[j].modifiedAt
  {
    NewerFirstIsStrictWeak();
    Sorting.StableSortSorted(ms, NewerFirst);
  }

  /** Every collected record is the metadata of some listed file, and that file exists. */
  lemma {:induction false} CollectedFromFiles<D>(dir: Dir, codec: Codec<D>, listing: seq<string>, formatType: Option<string>, now: int, k: nat)
    requires k < |Collected(dir, codec, listing, formatType, now)|
    ensures exists i :: 0 <= i < |listing| && Selected(listing[i], formatType) &&
              MetadataOf(dir, codec, Stem(listing[i]), FormatOf(listing[i]), now) == Some(Collected(dir, codec, listing, formatType, now)[k])
    ensures PathOf(Collected(dir, codec, listing, formatType, now)[k]) in dir
  {
    var c := Collected(dir, codec, listing, formatType, now);
    var f := ListedEntry(dir, codec, formatType, now);
    Seqs.FilterMapMember(listing, f, c[k]);
    var i :| 0 <= i < |listing| && f(listing[i]) == Some(c[k]);
    assert Selected(listing[i], formatType);
  }

  /** Entries collected at different places in a listing describe different files. */
  lemma CollectedDistinct<D>(dir: Dir, codec: Codec<D>, listing: seq<string>, formatType: Option<string>, now: int)
    requires forall i, j :: 0 <= i < j < |listing| ==> listing[i] != listing[j]
    ensures var c := Collected(dir, codec, listing, formatType, now);
            forall p, q :: 0 <= p < q < |c| ==> PathOf(c[p]) != PathOf(c[q])
  {
    var f := ListedEntry(dir, codec, formatType, now);
    forall i, j | 0 <= i < j < |listing| && f(listing[i]).Some? && f(listing[j]).Some?
      ensures PathOf(f(listing[i]).value) != PathOf(f(listing[j]).value)
    {
      EntryPathInjective(listing[i], listing[j]);
    }
    Seqs.FilterMapApart(listing, f, PathOf);
  }

  /**
   * When every selected file has a suffix, the listing describes exactly the
   * selected files, one record each, in directory order.
   */
  lemma {:induction false} CollectedExactly<D>(dir: Dir, codec: Codec<D>, listing: seq<string>, formatType: Option<string>, now: int)
    requires forall i :: 0 <= i < |listing| ==> listing[i] in dir
    requires forall i :: 0 <= i < |listing| && Selected(listing[i], formatType) ==> HasSuffix(listing[i])
    ensures Seqs.Map(Collected(dir, codec, listing, formatType, now), PathOf) == Seqs.Filter(listing, n => Selected(n, formatType))
  {
    if listing != [] {
      var n := listing[0];
      var rest := listing[1..];
      CollectedExactly(dir, codec, rest, formatType, now);
      var f := ListedEntry(dir, codec, formatType, now);
      var t := Collected(dir, codec, rest, formatType, now);
      if Selected(n, formatType) {
        EntryPathShape(n);
        assert f(n).Some?;
        assert Collected(dir, codec, listing, formatType, now) == [f(n).value] + t;
        assert PathOf(f(n).value) == n;
        Seqs.MapAppend([f(n).value], t, PathOf);
      } else {
        assert Collected(dir, codec, listing, formatType, now) == t;
      }
    }
  }

  /** `rfind` skips a trailing run free of dots. */
  lemma {:induction false} RFindDotAppend(x: string, f: string)
    requires '.' !in f
    ensures RFindDot(x + "." + f) == |x|
  {
    if f != [] {
      var s := x + "." + f;
      assert s[..|s| - 1] == x + "." + f[..|f| - 1];
      RFindDotAppend(x, f[..|f| - 1]);
    }
  }

  /** A name ending in ".{format}" has that format as its suffix, unless it is ".{format}" itself. */
  lemma SelectedFormat(n: string, format: string)
    requires format != "" && '.' !in format
    requires PyStr.EndsWith(n, "." + format)
    ensures (HasSuffix(n) && FormatOf(n) == format) || n == "." + format
  {
    var x := n[..|n| - |format| - 1];
    assert n == x + "." + format;
    RFindDotAppend(x, format);
    if x != "" {
      assert n[|x| + 1..] == format;
    }
  }

  /**
   * Filtering by a dot-free format lists only records of that format, except
   * for the metadata a file named ".{format}" makes `get_cache_metadata` read.
   */
  lemma FormatFilterHolds<D>(dir: Dir, codec: Codec<D>, listing: seq<string>, format: string, now: int, m: Metadata)
    requires format != "" && '.' !in format
    requires m in Collected(dir, codec, listing, Some(format), now)
    ensures m.format == format || m.fileHash == "." + format
  {
    var f := ListedEntry(dir, codec, Some(format), now);
    Seqs.FilterMapMember(listing, f, m);
    var i :| 0 <= i < |listing| && f(listing[i]) == Some(m);
    SelectedFormat(listing[i], format);
  }

  // ---------------------------------------------------------------------------
  // get_cache_stats
  // ---------------------------------------------------------------------------

  datatype FormatStat = FormatStat(count: nat, sizeBytes: nat)

  /** `oldest_file` and `newest_file`. */
  datatype FileRef = FileRef(fileHash: string, modifiedAt: int, format: string)

  /**
   * The dictionary `get_cache_stats` returns; `formats` keeps the order in
   * which the formats were first met, as a Python dict does, and
   * `totalSizeMb` is absent when the cache is empty.
   */
  datatype CacheStats = CacheStats(totalFiles: nat, totalSizeBytes: nat, expiredFiles: nat,
                                   formats: seq<(string, FormatStat)>, oldest: Option<FileRef>,
                                   newest: Option<FileRef>, cacheExpiryDays: int, totalSizeMb: Option<real>)

  function RefOf(m: Metadata): FileRef {
    FileRef(m.fileHash, m.modifiedAt, m.format)
  }

  /** The sum of the sizes. */
  function TotalSize(ms: seq<Metadata>): nat {
    if ms == [] then 0 else TotalSize(ms[..|ms| - 1]) + ms[|ms| - 1].size
  }

  /** The number of expired records. */
  function ExpiredCount(ms: seq<Metadata>): (n: nat)
    ensures n <= |ms|
    ensures n == 0 <==> forall i :: 0 <= i < |ms| ==> !ms[i].expired
    ensures n == |ms| <==> forall i :: 0 <= i < |ms| ==> ms[i].expired
  {
    if ms == [] then 0 else ExpiredCount(ms[..|ms| - 1]) + (if ms[|ms| - 1].expired then 1 else 0)
  }

  /** `formats[fmt]['count'] += 1; formats[fmt]['size_bytes'] += size`, creating the entry on first use. */
  function Bump(fs: seq<(string, FormatStat)>, format: string, size: nat): seq<(string, FormatStat)> {
    if fs == [] then [(format, FormatStat(1, size))]
    else if fs[0].0 == format then [(format, FormatStat(fs[0].1.count + 1, fs[0].1.sizeBytes + size))] + fs[1..]
    else [fs[0]] + Bump(fs[1..], format, size)
  }

  function Tally(ms: seq<Metadata>): seq<(string, FormatStat)> {
    if ms == [] then [] else Bump(Tally(ms[..|ms| - 1]), ms[|ms| - 1].format, ms[|ms| - 1].size)
  }

  /** `modified_at < oldest['modified_at']`: a later tie does not replace the first. */
  function Oldest(ms: seq<Metadata>): Option<FileRef> {
    if ms == [] then None
    else
      var o := Oldest(ms[..|ms| - 1]);
      var m := ms[|ms| - 1];
      if o.None? || m.modifiedAt < o.value.modifiedAt then Some(RefOf(m)) else o
  }

  /** `modified_at > newest['modified_at']`. */
  function Newest(ms: seq<Metadata>): Option<FileRef> {
    if ms == [] then None
    else
      var o := Newest(ms[..|ms| - 1]);
      var m := ms[|ms| - 1];
      if o.None? || m.modifiedAt > o.value.modifiedAt then Some(RefOf(m)) else o
  }

  /** `settings.CACHE_EXPIRY.days`. */
  const ExpiryDays: int := CacheExpiry / SecondsPerDay

  /** The statistics of a listing. */
  function StatsOf(ms: seq<Metadata>): CacheStats {
    if ms == [] then CacheStats(0, 0, 0, [], None, None, ExpiryDays, None)
    else CacheStats(|ms|, TotalSize(ms), ExpiredCount(ms), Tally(ms), Oldest(ms), Newest(ms), ExpiryDays,
                    Some(TotalSize(ms) as real / MiB))
  }

  /** `get_cache_stats`. */
  method GetCacheStats<D>(store: Store<D>, listing: seq<string>, now: int) returns (stats: CacheStats)
    ensures stats == StatsOf(NewestFirst(Collected(store.files, store.codec, listing, None, now)))
  {
    var files := ListCacheFiles(store, listing, None, now);
    if files == [] {
      return CacheStats(0, 0, 0, [], None, None, ExpiryDays, None);
    }
    var total: nat := 0;
    var expired: nat := 0;
    var formats: seq<(string, FormatStat)> := [];
    var oldest: Option<FileRef> := None;
    var newest: Option<FileRef> := None;
    var i := 0;
    while i < |files|
      invariant 0 <= i <= |files|
      invariant total == TotalSize(files[..i]) && expired == ExpiredCount(files[..i])
      invariant formats == Tally(files[..i])
      invariant oldest == Oldest(files[..i]) && newest == Newest(files[..i])
    {
      var m := files[i];
      StatsStep(files, i);
      total := total + m.size;
      if m.expired {
        expired := expired + 1;
      }
      formats := Bump(formats, m.format, m.size);
      if oldest.None? || m.modifiedAt < oldest.value.modifiedAt {
        oldest := Some(RefOf(m));
      }
      if newest.None? || m.modifiedAt > newest.value.modifiedAt {
        newest := Some(RefOf(m));
      }
      i := i + 1;
    }
    assert files[..i] == files;
    stats := CacheStats(|files|, total, expired, formats, oldest, newest, ExpiryDays, Some(total as real / MiB));
  }

  /** One more record, as the loop of `get_cache_stats` takes it. */
  lemma StatsStep(ms: seq<Metadata>, i: nat)
    requires i < |ms|
    ensures var p := ms[..i + 1]; var m := ms[i];
            TotalSize(p) == TotalSize(ms[..i]) + m.size &&
            ExpiredCount(p) == ExpiredCount(ms[..i]) + (if m.expired then 1 else 0) &&
            Tally(p) == Bump(Tally(ms[..i]), m.format, m.size) &&
            Oldest(p) == (if Oldest(ms[..i]).None? || m.modifiedAt < Oldest(ms[..i]).value.modifiedAt then Some(RefOf(m)) else Oldest(ms[..i])) &&
            Newest(p) == (if Newest(ms[..i]).None? || m.modifiedAt > Newest(ms[..i]).value.modifiedAt then Some(RefOf(m)) else Newest(ms[..i]))
  {
    assert ms[..i + 1][..i] == ms[..i];
  }

  /** The entry a format has in the tally, zero when it has none. */
  function Lookup(fs: seq<(string, FormatStat)>, format: string): FormatStat {
    if fs == [] then FormatStat(0, 0) else if fs[0].0 == format then fs[0].1 else Lookup(fs[1..], format)
  }

  function Keys(fs: seq<(string, FormatStat)>): seq<string> {
    if fs == [] then [] else [fs[0].0] + Keys(fs[1..])
  }

  /** The records of one format. */
  function OfFormat(ms: seq<Metadata>, format: string): seq<Metadata> {
    if ms == [] then []
    else OfFormat(ms[..|ms| - 1], format) + (if ms[|ms| - 1].format == format then [ms[|ms| - 1]] else [])
  }

  lemma {:induction false} BumpLookup(fs: seq<(string, FormatStat)>, format: string, size: nat, k: string)
    ensures Lookup(Bump(fs, format, size), k) ==
            if k == format then FormatStat(Lookup(fs, k).count + 1, Lookup(fs, k).sizeBytes + size) else Lookup(fs, k)
  {
    if fs != [] && fs[0].0 != format {
      BumpLookup(fs[1..], format, size, k);
    }
  }

  lemma {:induction false} BumpKeys(fs: seq<(string, FormatStat)>, format: string, size: nat)
    ensures Keys(Bump(fs, format, size)) == if format in Keys(fs) then Keys(fs) else Keys(fs) + [format]
  {
    if fs != [] && fs[0].0 != format {
      BumpKeys(fs[1..], format, size);
    }
  }

  /** Each format's entry counts its records and adds up their sizes. */
  lemma {:induction false} TallyLookup(ms: seq<Metadata>, k: string)
    ensures Lookup(Tally(ms), k) == FormatStat(|OfFormat(ms, k)|, TotalSize(OfFormat(ms, k)))
  {
    if ms != [] {
      var init := ms[..|ms| - 1];
      var m := ms[|ms| - 1];
      TallyLookup(init, k);
      BumpLookup(Tally(init), m.format, m.size, k);
      assert Tally(ms) == Bump(Tally(init), m.format, m.size);
      if m.format == k {
        var o := OfFormat(init, k) + [m];
        assert OfFormat(ms, k) == o;
        assert o[..|o| - 1] == OfFormat(init, k);
        assert TotalSize(o) == TotalSize(OfFormat(init, k)) + m.size;
      } else {
        assert OfFormat(ms, k) == OfFormat(init, k) + [];
        assert OfFormat(init, k) + [] == OfFormat(init, k);
      }
    }
  }

  /** The formats are listed once each, in the order they first appear. */
  lemma {:induction false} TallyKeys(ms: seq<Metadata>)
    ensures forall i, j :: 0 <= i < j < |Keys(Tally(ms))| ==> Keys(Tally(ms))[i] != Keys(Tally(ms))[j]
    ensures forall k :: k in Keys(Tally(ms)) <==> exists i :: 0 <= i < |ms| && ms[i].format == k
  {
    if ms != [] {
      var init := ms[..|ms| - 1];
      var m := ms[|ms| - 1];
      TallyKeys(init);
      BumpKeys(Tally(init), m.format, m.size);
      Seqs.InitLast(ms);
      forall k ensures k in Keys(Tally(ms)) <==> exists i :: 0 <= i < |ms| && ms[i].format == k {
        FormatsSnoc(init, m, k);
      }
      if m.format !in Keys(Tally(init)) {
        DistinctSnoc(Keys(Tally(init)), m.format);
      }
    }
  }

  lemma FormatsSnoc(init: seq<Metadata>, m: Metadata, k: string)
    ensures (exists i :: 0 <= i < |init + [m]| && (init + [m])[i].format == k) <==>
            (exists i :: 0 <= i < |init| && init[i].format == k) || m.format == k
  {
    var ms := init + [m];
    if exists i :: 0 <= i < |ms| && ms[i].format == k {
      var i :| 0 <= i < |ms| && ms[i].format == k;
      if i < |init| {
        assert init[i] == ms[i];
      }
    }
    if exists i :: 0 <= i < |init| && init[i].format == k {
      var i :| 0 <= i < |init| && init[i].format == k;
      assert ms[i] == init[i];
    }
    if m.format == k {
      assert ms[|init|] == m;
    }
  }

  lemma DistinctSnoc<T>(xs: seq<T>, x: T)
    requires forall i, j :: 0 <= i < j < |xs| ==> xs[i] != xs[j]
    requires x !in xs
    ensures forall i, j :: 0 <= i < j < |xs + [x]| ==> (xs + [x])[i] != (xs + [x])[j]
  {
  }

  /** The oldest record is the first of those modified earliest. */
  lemma {:induction false} OldestIsFirstEarliest(ms: seq<Metadata>)
    requires ms != []
    ensures exists i :: 0 <= i < |ms| && Oldest(ms) == Some(RefOf(ms[i])) &&
              (forall j :: 0 <= j < |ms| ==> ms[i].modifiedAt <= ms[j].modifiedAt) &&
              (forall j :: 0 <= j < i ==> ms[j].modifiedAt > ms[i].modifiedAt)
  {
    var init := ms[..|ms| - 1];
    var m := ms[|ms| - 1];
    if init == [] {
      assert Oldest(ms) == Some(RefOf(ms[0]));
    } else {
      OldestIsFirstEarliest(init);
      var i :| 0 <= i < |init| && Oldest(init) == Some(RefOf(init[i])) &&
               (forall j :: 0 <= j < |init| ==> init[i].modifiedAt <= init[j].modifiedAt) &&
               (forall j :: 0 <= j < i ==> init[j].modifiedAt > init[i].modifiedAt);
      if m.modifiedAt < init[i].modifiedAt {
        assert Oldest(ms) == Some(RefOf(ms[|ms| - 1]));
        forall j | 0 <= j < |ms| - 1 ensures ms[j].modifiedAt > m.modifiedAt {
          assert ms[j] == init[j];
        }
      } else {
        assert ms[i] == init[i];
        forall j | 0 <= j < |ms| ensures ms[i].modifiedAt <= ms[j].modifiedAt {
          if j < |init| { assert ms[j] == init[j]; }
        }
        forall j | 0 <= j < i ensures ms[j].modifiedAt > ms[i].modifiedAt {
          assert ms[j] == init[j];
        }
      }
    }
  }

  /** The newest record is the first of those modified latest. */
  lemma {:induction false} NewestIsFirstLatest(ms: seq<Metadata>)
    requires ms != []
    ensures exists i :: 0 <= i < |ms| && Newest(ms) == Some(RefOf(ms[i])) &&
              (forall j :: 0 <= j < |ms| ==> ms[i].modifiedAt >= ms[j].modifiedAt) &&
              (forall j :: 0 <= j < i ==> ms[j].modifiedAt < ms[i].modifiedAt)
  {
    var init := ms[..|ms| - 1];
    var m := ms[|ms| - 1];
    if init == [] {
      assert Newest(ms) == Some(RefOf(ms[0]));
    } else {
      NewestIsFirstLatest(init);
      var i :| 0 <= i < |init| && Newest(init) == Some(RefOf(init[i])) &&
               (forall j :: 0 <= j < |init| ==> init[i].modifiedAt >= init[j].modifiedAt) &&
               (forall j :: 0 <= j < i ==> init[j].modifiedAt < init[i].modifiedAt);
      if m.modifiedAt > init[i].modifiedAt {
        assert Newest(ms) == Some(RefOf(ms[|ms| - 1]));
        forall j | 0 <= j < |ms| - 1 ensures ms[j].modifiedAt < m.modifiedAt {
          assert ms[j] == init[j];
        }
      } else {
        assert ms[i] == init[i];
        forall j | 0 <= j < |ms| ensures ms[i].modifiedAt >= ms[j].modifiedAt {
          if j < |init| { assert ms[j] == init[j]; }
        }
        forall j | 0 <= j < i ensures ms[j].modifiedAt < ms[i].modifiedAt {
          assert ms[j] == init[j];
        }
      }
    }
  }

  /** On the newest-first listing `get_cache_stats` walks, the newest file is the first one listed. */
  lemma NewestIsHead(ms: seq<Metadata>)
    requires ms != []
    ensures Newest(NewestFirst(ms)) == Some(RefOf(NewestFirst(ms)[0]))
  {
    var s := NewestFirst(ms);
    NewestFirstOrdered(ms);
    assert |s| == |ms| by {
      assert |multiset(s)| == |multiset(ms)|;
    }
    NewestIsFirstLatest(s);
    var i :| 0 <= i < |s| && Newest(s) == Some(RefOf(s[i])) &&
             (forall j :: 0 <= j < |s| ==> s[i].modifiedAt >= s[j].modifiedAt) &&
             (forall j :: 0 <= j < i ==> s[j].modifiedAt < s[i].modifiedAt);
    assert s[0].modifiedAt >= s[i].modifiedAt;
    assert i == 0;
  }

  // ---------------------------------------------------------------------------
  // clean_expired_cache
  // ---------------------------------------------------------------------------

  datatype CleanResult = CleanResult(filesRemoved: nat, bytesFreed: nat, errors: seq<string>, mbFreed: real)

  /** `file_meta.get('expired')`, with a non-empty hash and format. */
  predicate Deletable(m: Metadata) {
    m.expired && m.fileHash != "" && m.format != ""
  }

  /** The directory and the counters as a deleting loop leaves them. */
  datatype Sweep = Sweep(dir: Dir, removed: nat, freed: nat, errors: seq<string>)

  /** One record of `clean_expired_cache`: delete it if it is expired, or note the failure. */
  function SweepOne(s: Sweep, m: Metadata): Sweep {
    if !Deletable(m) then s
    else if PathOf(m) in s.dir then Sweep(s.dir - {PathOf(m)}, s.removed + 1, s.freed + m.size, s.errors)
    else Sweep(s.dir, s.removed, s.freed, s.errors + ["Failed to delete " + m.fileHash + "." + m.format])
  }

  /** The loop of `clean_expired_cache` over the listed records. */
  function SweepExpired(dir: Dir, ms: seq<Metadata>): Sweep {
    if ms == [] then Sweep(dir, 0, 0, []) else SweepOne(SweepExpired(dir, ms[..|ms| - 1]), ms[|ms| - 1])
  }

  lemma SweepExpiredStep(dir: Dir, ms: seq<Metadata>, i: nat)
    requires i < |ms|
    ensures SweepExpired(dir, ms[..i + 1]) == SweepOne(SweepExpired(dir, ms[..i]), ms[i])
  {
    assert ms[..i + 1][..i] == ms[..i];
  }

  /** `clean_expired_cache`. */
  method CleanExpiredCache<D>(store: Store<D>, listing: seq<string>, now: int) returns (r: CleanResult)
    modifies store
    ensures var s := SweepExpired(old(store.files), NewestFirst(Collected(old(store.files), store.codec, listing, None, now)));
            store.files == s.dir && r == CleanResult(s.removed, s.freed, s.errors, s.freed as real / MiB)
  {
    var files := ListCacheFiles(store, listing, None, now);
    ghost var dir0 := store.files;
    var removed: nat := 0;
    var freed: nat := 0;
    var errors: seq<string> := [];
    var i := 0;
    while i < |files|
      invariant 0 <= i <= |files|
      invariant SweepExpired(dir0, files[..i]) == Sweep(store.files, removed, freed, errors)
    {
      var m := files[i];
      SweepExpiredStep(dir0, files, i);
      removed, freed, errors := CleanOne(store, m, removed, freed, errors);
      i := i + 1;
    }
    assert files[..i] == files;
    r := CleanResult(removed, freed, errors, freed as real / MiB);
  }

  /** The body of the loop of `clean_expired_cache`, for one record. */
  method CleanOne<D>(store: Store<D>, m: Metadata, removed: nat, freed: nat, errors: seq<string>)
    returns (removed': nat, freed': nat, errors': seq<string>)
    modifies store
    ensures Sweep(store.files, removed', freed', errors') == SweepOne(Sweep(old(store.files), removed, freed, errors), m)
  {
    removed', freed', errors' := removed, freed, errors;
    if m.expired && m.fileHash != "" && m.format != "" {
      assert Deletable(m);
      var deleted := store.Delete(m.fileHash, m.format);
      if deleted {
        removed' := removed + 1;
        freed' := freed + m.size;
      } else {
        errors' := errors + ["Failed to delete " + m.fileHash + "." + m.format];
      }
    } else {
      assert !Deletable(m);
    }
  }

  /** No two records of a listing describe the same file. */
  predicate DistinctPaths(ms: seq<Metadata>) {
    forall p, q :: 0 <= p < q < |ms| ==> PathOf(ms[p]) != PathOf(ms[q])
  }

  /** The files of the records the sweep deletes. */
  function DeletablePaths(ms: seq<Metadata>): set<string> {
    set m | m in ms && Deletable(m) :: PathOf(m)
  }

  lemma {:induction false} OnlyOnce<T>(s: seq<T>, i: nat)
    requires i < |s|
    requires forall j :: 0 <= j < |s| && j != i ==> s[j] != s[i]
    ensures multiset(s)[s[i]] == 1
  {
    assert s == [s[0]] + s[1..];
    if i == 0 {
      assert s[0] !in s[1..];
    } else {
      assert forall j :: 0 <= j < |s[1..]| && j != i - 1 ==> s[1..][j] == s[j + 1];
      OnlyOnce(s[1..], i - 1);
    }
  }

  lemma TwiceCounted<T>(s: seq<T>, p: nat, q: nat)
    requires p < q < |s| && s[p] == s[q]
    ensures multiset(s)[s[p]] >= 2
  {
    assert s == s[..q] + [s[q]] + s[q + 1..];
    assert s[p] in s[..q];
  }

  /** Reordering a listing keeps its files distinct. */
  lemma PermutedDistinct(c: seq<Metadata>, s: seq<Metadata>)
    requires DistinctPaths(c) && multiset(s) == multiset(c)
    ensures DistinctPaths(s)
  {
    forall p, q | 0 <= p < q < |s| ensures PathOf(s[p]) != PathOf(s[q]) {
      if PathOf(s[p]) == PathOf(s[q]) {
        assert s[p] in multiset(c) && s[q] in multiset(c);
        var i :| 0 <= i < |c| && c[i] == s[p];
        var j :| 0 <= j < |c| && c[j] == s[q];
        assert i == j;
        OnlyOnce(c, i);
        TwiceCounted(s, p, q);
        assert false;
      }
    }
  }

  lemma DeletablePathsSnoc(ms: seq<Metadata>, m: Metadata)
    ensures DeletablePaths(ms + [m]) == DeletablePaths(ms) + (if Deletable(m) then {PathOf(m)} else {})
  {
    forall x | x in ms + [m] ensures x in ms || x == m { }
  }

  lemma MapMinusStep<K, V>(m: map<K, V>, a: set<K>, k: K)
    ensures m - a - {k} == m - (a + {k})
  {
  }

  /**
   * Over records that describe distinct existing files, the sweep deletes
   * exactly the deletable ones, each once, and reports no failure.
   */
  /** The last record's file is not among the files of the records before it. */
  lemma LastPathFresh(ms: seq<Metadata>)
    requires ms != [] && DistinctPaths(ms)
    ensures DistinctPaths(ms[..|ms| - 1])
    ensures PathOf(ms[|ms| - 1]) !in DeletablePaths(ms[..|ms| - 1])
  {
    var init := ms[..|ms| - 1];
    forall x | x in init ensures PathOf(x) != PathOf(ms[|ms| - 1]) {
      var k :| 0 <= k < |init| && init[k] == x;
      assert ms[k] == x;
    }
  }

  lemma {:induction false} SweepExpiredDeletes(dir: Dir, ms: seq<Metadata>)
    requires DistinctPaths(ms)
    requires forall m :: m in ms ==> PathOf(m) in dir
    ensures SweepExpired(dir, ms).errors == []
    ensures SweepExpired(dir, ms).dir == dir - DeletablePaths(ms)
    ensures SweepExpired(dir, ms).removed == |DeletablePaths(ms)|
  {
    if ms == [] {
      assert DeletablePaths(ms) == {};
    } else {
      var init := ms[..|ms| - 1];
      var m := ms[|ms| - 1];
      assert ms == init + [m];
      LastPathFresh(ms);
      SweepExpiredDeletes(dir, init);
      DeletablePathsSnoc(init, m);
      assert m in ms;
      SweepOneDeletes(dir, DeletablePaths(init), SweepExpired(dir, init), m);
    }
  }

  /** One step of the sweep keeps "exactly the deletable files so far are gone, without failure". */
  lemma SweepOneDeletes(dir: Dir, gone: set<string>, t: Sweep, m: Metadata)
    requires t.errors == [] && t.dir == dir - gone && t.removed == |gone|
    requires PathOf(m) in dir && PathOf(m) !in gone
    ensures var gone' := gone + (if Deletable(m) then {PathOf(m)} else {});
            SweepOne(t, m).errors == [] && SweepOne(t, m).dir == dir - gone' && SweepOne(t, m).removed == |gone'|
  {
    if Deletable(m) {
      assert PathOf(m) in t.dir;
      MapMinusStep(dir, gone, PathOf(m));
    }
  }

  /**
   * On a listing of the directory, `clean_expired_cache` removes exactly the
   * expired entries it lists (with a hash and a format) and records no error.
   */
  lemma CleanExpiredRemovesExpired<D>(dir: Dir, codec: Codec<D>, listing: seq<string>, now: int)
    requires Listing(dir, listing)
    ensures var ms := NewestFirst(Collected(dir, codec, listing, None, now));
            SweepExpired(dir, ms).errors == [] &&
            SweepExpired(dir, ms).dir == dir - DeletablePaths(ms) &&
            SweepExpired(dir, ms).removed == |DeletablePaths(ms)|
  {
    var c := Collected(dir, codec, listing, None, now);
    var ms := NewestFirst(c);
    CollectedDistinct(dir, codec, listing, None, now);
    NewestFirstOrdered(c);
    PermutedDistinct(c, ms);
    forall m | m in ms ensures PathOf(m) in dir {
      assert m in multiset(c);
      var k :| 0 <= k < |c| && c[k] == m;
      CollectedFromFiles(dir, codec, listing, None, now, k);
    }
    SweepExpiredDeletes(dir, ms);
  }

  // ---------------------------------------------------------------------------
  // clean_all_cache
  // ---------------------------------------------------------------------------

  datatype CleanAllResult = CleanAllResult(filesRemoved: nat, bytesFreed: nat, errors: seq<string>, mbFreed: real,
                                           totalFilesBefore: nat, totalSizeMbBefore: real)

  /** The keys of the dictionary `get_cache_stats` returns. */
  function StatsKeys(s: CacheStats): set<string> {
    {"total_files", "total_size_bytes", "expired_files", "formats", "oldest_file", "newest_file",
     "cache_directory", "cache_expiry_days"} + (if s.totalSizeMb.Some? then {"total_size_mb"} else {})
  }

  /** `stats.get(key, 0)` for the numeric entries of the statistics; 0 for a key they lack. */
  function StatsGet(s: CacheStats, key: string): (v: real)
    ensures key !in StatsKeys(s) ==> v == 0.0
  {
    if key == "total_files" then s.totalFiles as real
    else if key == "total_size_bytes" then s.totalSizeBytes as real
    else if key == "expired_files" then s.expiredFiles as real
    else if key == "cache_expiry_days" then s.cacheExpiryDays as real
    else if key == "total_size_mb" && s.totalSizeMb.Some? then s.totalSizeMb.value
    else 0.0
  }

  /** `total_size_mb_before` as written: `stats_before.get('mb_freed', 0)`. */
  function SizeBeforeAsWritten(s: CacheStats): real {
    StatsGet(s, "mb_freed")
  }

  /** `total_size_mb_before` as intended: the statistics' own `total_size_mb`. */
  function SizeBefore(s: CacheStats): real {
    StatsGet(s, "total_size_mb")
  }

  /** The statistics have no `mb_freed` entry, so the written report is always 0. */
  lemma SizeBeforeAsWrittenIsZero(s: CacheStats)
    ensures "mb_freed" !in StatsKeys(s)
    ensures SizeBeforeAsWritten(s) == 0.0
  {
  }

  /** The intended report gives the size of the cache before it was cleaned; the written one loses it. */
  lemma SizeBeforeReportsSize(ms: seq<Metadata>)
    ensures SizeBefore(StatsOf(ms)) * MiB == TotalSize(ms) as real
    ensures TotalSize(ms) > 0 ==> SizeBefore(StatsOf(ms)) > 0.0 && SizeBeforeAsWritten(StatsOf(ms)) == 0.0
  {
  }

  /** One cached file of one mebibyte: the written report says 0 MB were there before cleaning. */
  lemma SizeBeforeLostExample()
    ensures var m := Metadata("h", "json", 1048576, None, 0, 0, false);
            SizeBeforeAsWritten(StatsOf([m])) == 0.0 && SizeBefore(StatsOf([m])) == 1.0
  {
    var m := Metadata("h", "json", 1048576, None, 0, 0, false);
    assert [m][..0] == [];
    assert TotalSize([m]) == 1048576;
  }

  /** `existing_files = list(cache_dir.glob("*.*"))` and the loop that unlinks them. */
  function SweepAll(dir: Dir, listing: seq<string>): Sweep {
    if listing == [] then Sweep(dir, 0, 0, []) else UnlinkOne(SweepAll(dir, listing[..|listing| - 1]), listing[|listing| - 1])
  }

  /** One name of `clean_all_cache`: unlink it when it matches `*.*`; a missing file is a failure. */
  function UnlinkOne(s: Sweep, n: string): Sweep {
    if '.' !in n then s
    else if n in s.dir then Sweep(s.dir - {n}, s.removed + 1, s.freed + |s.dir[n].bytes|, s.errors)
    else Sweep(s.dir, s.removed, s.freed, s.errors + ["Failed to delete " + n])
  }

  /** One pass of the loop of `clean_all_cache`: the directory and tallies move as `UnlinkOne` says. */
  method UnlinkName<D>(store: Store<D>, n: string, removed: nat, freed: nat, errors: seq<string>)
    returns (removed': nat, freed': nat, errors': seq<string>)
    modifies store
    ensures Sweep(store.files, removed', freed', errors') == UnlinkOne(Sweep(old(store.files), removed, freed, errors), n)
  {
    removed', freed', errors' := removed, freed, errors;
    if '.' in n {
      if n in store.files {
        var size := |store.files[n].bytes|;
        store.files := store.files - {n};
        removed' := removed + 1;
        freed' := freed + size;
      } else {
        errors' := errors + ["Failed to delete " + n];
      }
    }
  }

  /** `clean_all_cache`, reporting the size before cleaning as corrected (`SizeBefore`, not the 0 of `SizeBeforeAsWritten`). */
  method CleanAllCache<D>(store: Store<D>, listing: seq<string>, now: int) returns (r: CleanAllResult)
    modifies store
    ensures var before := StatsOf(NewestFirst(Collected(old(store.files), store.codec, listing, None, now)));
            var s := SweepAll(old(store.files), listing);
            store.files == s.dir &&
            r == CleanAllResult(s.removed, s.freed, s.errors, s.freed as real / MiB, before.totalFiles, SizeBefore(before))
  {
    var statsBefore := GetCacheStats(store, listing, now);
    ghost var dir0 := store.files;
    var removed: nat := 0;
    var freed: nat := 0;
    var errors: seq<string> := [];
    var i := 0;
    while i < |listing|
      invariant 0 <= i <= |listing|
      invariant SweepAll(dir0, listing[..i]) == Sweep(store.files, removed, freed, errors)
    {
      assert listing[..i + 1][..i] == listing[..i];
      removed, freed, errors := UnlinkName(store, listing[i], removed, freed, errors);
      i := i + 1;
    }
    assert listing[..i] == listing;
    r := CleanAllResult(removed, freed, errors, freed as real / MiB, statsBefore.totalFiles, SizeBefore(statsBefore));
  }

  /** The names with a dot among the first names of a listing. */
  function Dotted(listing: seq<string>): set<string> {
    set n | n in listing && '.' in n
  }

  /** Over distinct names of existing files, every name with a dot is unlinked, each once, without error. */
  lemma DottedSnoc(init: seq<string>, n: string)
    ensures Dotted(init + [n]) == Dotted(init) + (if '.' in n then {n} else {})
  {
    forall x | x in init + [n] ensures x in init || x == n { }
  }

  lemma {:induction false} SweepAllDeletes(dir: Dir, listing: seq<string>)
    requires forall i, j :: 0 <= i < j < |listing| ==> listing[i] != listing[j]
    requires forall n :: n in listing ==> n in dir
    ensures SweepAll(dir, listing).errors == []
    ensures SweepAll(dir, listing).dir == dir - Dotted(listing)
    ensures SweepAll(dir, listing).removed == |Dotted(listing)|
  {
    if listing == [] {
      assert Dotted(listing) == {};
    } else {
      var init := listing[..|listing| - 1];
      var n := listing[|listing| - 1];
      assert listing == init + [n];
      assert n !in init by {
        forall k | 0 <= k < |init| ensures init[k] != n {
          assert listing[k] == init[k];
        }
      }
      SweepAllDeletes(dir, init);
      DottedSnoc(init, n);
      var t := SweepAll(dir, init);
      assert SweepAll(dir, listing) == UnlinkOne(t, n);
      if '.' in n {
        assert n in t.dir;
        MapMinusStep(dir, Dotted(init), n);
      }
    }
  }

  /** On a listing of the directory, `clean_all_cache` leaves only the names without a dot. */
  lemma CleanAllEmpties(dir: Dir, listing: seq<string>)
    requires Listing(dir, listing)
    ensures SweepAll(dir, listing).errors == []
    ensures forall n :: n in SweepAll(dir, listing).dir <==> n in dir && '.' !in n
  {
    SweepAllDeletes(dir, listing);
  }

  // ---------------------------------------------------------------------------
  // get_cache_for_file and delete_cache_for_file
  // ---------------------------------------------------------------------------

  /** `cache_dir.glob(f"{file_hash}.*")` keeps `name`. */
  predicate OfHash(name: string, hash: string) {
    PyStr.StartsWith(name, hash + ".")
  }

  /** The loop of `get_cache_for_file`: metadata of `{hash}.{suffix}` for each matching name. */
  function HashEntry<D>(dir: Dir, codec: Codec<D>, hash: string, now: int): string -> Option<Metadata> {
    name => if OfHash(name, hash) then MetadataOf(dir, codec, hash, FormatOf(name), now) else None
  }

  function HashCollected<D>(dir: Dir, codec: Codec<D>, listing: seq<string>, hash: string, now: int): seq<Metadata> {
    Seqs.FilterMap(listing, HashEntry(dir, codec, hash, now))
  }

  /** `sort(key=format)`. */
  predicate FormatBefore(a: Metadata, b: Metadata) {
    Sorting.LexLess(a.format, b.format)
  }

  function ByFormat(ms: seq<Metadata>): seq<Metadata> {
    Sorting.StableSort(ms, FormatBefore)
  }

  datatype FileCacheInfo = FileCacheInfo(fileHash: string, cacheFiles: seq<Metadata>, totalFiles: nat,
                                         totalSizeBytes: nat, totalSizeMb: real)

  /** `get_cache_for_file`. */
  method GetCacheForFile<D>(store: Store<D>, listing: seq<string>, hash: string, now: int) returns (info: FileCacheInfo)
    ensures var ms := HashCollected(store.files, store.codec, listing, hash, now);
            info == FileCacheInfo(hash, ByFormat(ms), |ms|, TotalSize(ms), TotalSize(ms) as real / MiB)
  {
    var found: seq<Metadata> := [];
    var count: nat := 0;
    var size: nat := 0;
    var i := 0;
    while i < |listing|
      invariant 0 <= i <= |listing|
      invariant found == HashCollected(store.files, store.codec, listing[..i], hash, now)
      invariant count == |found| && size == TotalSize(found)
    {
      var name := listing[i];
      assert listing[..i + 1] == listing[..i] + [name];
      Seqs.FilterMapSnoc(listing[..i], name, HashEntry(store.files, store.codec, hash, now));
      if OfHash(name, hash) {
        var m := MetadataOf(store.files, store.codec, hash, FormatOf(name), now);
        if m.Some? {
          assert (found + [m.value])[..|found|] == found;
          found := found + [m.value];
          count := count + 1;
          size := size + m.value.size;
        }
      }
      i := i + 1;
    }
    assert listing[..i] == listing;
    info := FileCacheInfo(hash, ByFormat(found), count, size, size as real / MiB);
  }

  lemma FormatBeforeIsStrictWeak()
    ensures Sorting.StrictWeak(FormatBefore)
  {
    forall a, b | FormatBefore(a, b) ensures !FormatBefore(b, a) {
      Sorting.LexAsymmetric(a.format, b.format);
    }
    forall a, b, c | !FormatBefore(a, b) && !FormatBefore(b, c) ensures !FormatBefore(a, c) {
      if FormatBefore(a, c) {
        Sorting.LexSplit(a.format, b.format, c.format);
      }
    }
  }

  /** The files of a hash come in format order, one record per file found, all of that hash. */
  lemma CacheForFileOrdered<D>(dir: Dir, codec: Codec<D>, listing: seq<string>, hash: string, now: int)
    ensures var ms := HashCollected(dir, codec, listing, hash, now);
            multiset(ByFormat(ms)) == multiset(ms) && |ByFormat(ms)| == |ms| &&
            (forall i, j :: 0 <= i < j < |ByFormat(ms)| ==> !Sorting.LexLess(ByFormat(ms)[j].format, ByFormat(ms)[i].format)) &&
            (forall m :: m in ms ==> m.fileHash == hash && PathOf(m) in dir)
  {
    var ms := HashCollected(dir, codec, listing, hash, now);
    FormatBeforeIsStrictWeak();
    Sorting.StableSortSorted(ms, FormatBefore);
    assert |multiset(ByFormat(ms))| == |multiset(ms)|;
    forall m | m in ms ensures m.fileHash == hash && PathOf(m) in dir {
      Seqs.FilterMapMember(listing, HashEntry(dir, codec, hash, now), m);
    }
  }

  /** A name of the hash with a dot-free, non-empty suffix is the file its own record describes. */
  lemma HashNameShape(name: string, hash: string)
    requires hash != "" && OfHash(name, hash)
    requires |name| > |hash| + 1 && '.' !in name[|hash| + 1..]
    ensures CachePath(hash, FormatOf(name)) == name
  {
    var f := name[|hash| + 1..];
    assert name == hash + "." + f;
    RFindDotAppend(hash, f);
    assert FormatOf(name) == f;
  }

  /**
   * When every file of the hash is named `{hash}.{format}` with a dot-free
   * format, `get_cache_for_file` describes exactly those files, in directory order.
   */
  lemma {:induction false} HashCollectedExactly<D>(dir: Dir, codec: Codec<D>, listing: seq<string>, hash: string, now: int)
    requires hash != ""
    requires forall i :: 0 <= i < |listing| ==> listing[i] in dir
    requires forall i :: 0 <= i < |listing| && OfHash(listing[i], hash) ==>
               |listing[i]| > |hash| + 1 && '.' !in listing[i][|hash| + 1..]
    ensures Seqs.Map(HashCollected(dir, codec, listing, hash, now), PathOf) == Seqs.Filter(listing, n => OfHash(n, hash))
  {
    if listing != [] {
      var n := listing[0];
      var rest := listing[1..];
      HashCollectedExactly(dir, codec, rest, hash, now);
      var f := HashEntry(dir, codec, hash, now);
      var t := HashCollected(dir, codec, rest, hash, now);
      if OfHash(n, hash) {
        HashNameShape(n, hash);
        assert f(n).Some?;
        assert HashCollected(dir, codec, listing, hash, now) == [f(n).value] + t;
        Seqs.MapAppend([f(n).value], t, PathOf);
      } else {
        assert HashCollected(dir, codec, listing, hash, now) == t;
      }
    }
  }

  datatype DeleteResult = DeleteResult(fileHash: string, filesRemoved: nat, bytesFreed: nat, errors: seq<string>, mbFreed: real)

  /** `f"analysis_{file_hash}"`: the key under which analysis results of a file are cached. */
  function AnalysisKey(hash: string): string {
    "analysis_" + hash
  }

  /** The loop of `delete_cache_for_file` over the records of one key; a missing file is only logged. */
  function SweepKey(s: Sweep, key: string, ms: seq<Metadata>): Sweep {
    if ms == [] then s
    else
      var t := SweepKey(s, key, ms[..|ms| - 1]);
      var m := ms[|ms| - 1];
      if m.format == "" then t
      else if CachePath(key, m.format) in t.dir then
        Sweep(t.dir - {CachePath(key, m.format)}, t.removed + 1, t.freed + m.size, t.errors)
      else t
  }

  /** One record of the loops of `delete_cache_for_file`. */
  method DeleteOne<D>(store: Store<D>, key: string, m: Metadata, removed: nat, freed: nat)
    returns (removed': nat, freed': nat)
    modifies store
    ensures var s := Sweep(old(store.files), removed, freed, []);
            var t := if m.format == "" then s
                     else if CachePath(key, m.format) in s.dir then
                       Sweep(s.dir - {CachePath(key, m.format)}, s.removed + 1, s.freed + m.size, s.errors)
                     else s;
            Sweep(store.files, removed', freed', []) == t
  {
    removed', freed' := removed, freed;
    if m.format != "" {
      var deleted := store.Delete(key, m.format);
      if deleted {
        removed' := removed + 1;
        freed' := freed + m.size;
      }
    }
  }

  /** Deletes the records of one key, as each of the two loops of `delete_cache_for_file` does. */
  method DeleteRecords<D>(store: Store<D>, key: string, ms: seq<Metadata>, removed: nat, freed: nat)
    returns (removed': nat, freed': nat)
    modifies store
    ensures Sweep(store.files, removed', freed', []) == SweepKey(Sweep(old(store.files), removed, freed, []), key, ms)
  {
    ghost var s0 := Sweep(store.files, removed, freed, []);
    removed', freed' := removed, freed;
    var i := 0;
    while i < |ms|
      invariant 0 <= i <= |ms|
      invariant SweepKey(s0, key, ms[..i]) == Sweep(store.files, removed', freed', [])
    {
      assert ms[..i + 1][..i] == ms[..i];
      removed', freed' := DeleteOne(store, key, ms[i], removed', freed');
      i := i + 1;
    }
    assert ms[..i] == ms;
  }

  /** `delete_cache_for_file`: both listings are taken before anything is deleted. */
  method DeleteCacheForFile<D>(store: Store<D>, listing: seq<string>, hash: string, now: int) returns (r: DeleteResult)
    modifies store
    ensures var dir := old(store.files);
            var plain := ByFormat(HashCollected(dir, store.codec, listing, hash, now));
            var analysis := ByFormat(HashCollected(dir, store.codec, listing, AnalysisKey(hash), now));
            var s := SweepKey(SweepKey(Sweep(dir, 0, 0, []), hash, plain), AnalysisKey(hash), analysis);
            store.files == s.dir && r == DeleteResult(hash, s.removed, s.freed, [], s.freed as real / MiB)
  {
    var info := GetCacheForFile(store, listing, hash, now);
    var analysisInfo := GetCacheForFile(store, listing, AnalysisKey(hash), now);
    var removed, freed := DeleteRecords(store, hash, info.cacheFiles, 0, 0);
    removed, freed := DeleteRecords(store, AnalysisKey(hash), analysisInfo.cacheFiles, removed, freed);
    r := DeleteResult(hash, removed, freed, [], freed as real / MiB);
  }

  /** The files of the records with a format, as `{key}.{format}`. */
  function KeyPaths(key: string, ms: seq<Metadata>): set<string> {
    set m | m in ms && m.format != "" :: CachePath(key, m.format)
  }

  /** The loop removes the file of every record with a format and nothing else, at most one per record. */
  lemma {:induction false} SweepKeyRemoves(s: Sweep, key: string, ms: seq<Metadata>)
    ensures SweepKey(s, key, ms).dir == s.dir - KeyPaths(key, ms)
    ensures s.removed <= SweepKey(s, key, ms).removed <= s.removed + |ms|
    ensures SweepKey(s, key, ms).errors == s.errors
  {
    if ms == [] {
      assert KeyPaths(key, ms) == {};
    } else {
      var init := ms[..|ms| - 1];
      var m := ms[|ms| - 1];
      assert ms == init + [m];
      SweepKeyRemoves(s, key, init);
      var t := SweepKey(s, key, init);
      assert forall x :: x in ms <==> x in init || x == m;
      if m.format == "" {
        assert KeyPaths(key, ms) == KeyPaths(key, init);
      } else {
        var p := CachePath(key, m.format);
        assert KeyPaths(key, ms) == KeyPaths(key, init) + {p};
        MapMinusStep(s.dir, KeyPaths(key, init), p);
        if p !in t.dir {
          assert t.dir - {p} == t.dir;
        }
      }
    }
  }

  /** After `delete_cache_for_file` no file of a listed record of the hash or of its analysis remains. */
  lemma DeleteCacheForFileRemoves(dir: Dir, plain: seq<Metadata>, analysis: seq<Metadata>, hash: string)
    ensures var s := SweepKey(SweepKey(Sweep(dir, 0, 0, []), hash, plain), AnalysisKey(hash), analysis);
            s.dir == dir - KeyPaths(hash, plain) - KeyPaths(AnalysisKey(hash), analysis) &&
            s.removed <= |plain| + |analysis|
  {
    SweepKeyRemoves(Sweep(dir, 0, 0, []), hash, plain);
    SweepKeyRemoves(SweepKey(Sweep(dir, 0, 0, []), hash, plain), AnalysisKey(hash), analysis);
  }
}
