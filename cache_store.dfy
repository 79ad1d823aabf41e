// The file-backed cache of dna_service.py (lines 59-246): entries live in one
// directory under the name `{key}.{format}`; "json" entries are pickled
// wrappers, every other format is raw bytes. The directory is a map from file
// name to file, the clock is an integer number of seconds passed in, and
// pickling is a pair of functions whose round trip is assumed where needed.
module CacheStore {
  import opened Wrappers

  /** `settings.CACHE_EXPIRY`, seven days, in seconds. */
  const CacheExpiry: int := 7 * 24 * 60 * 60

  const SecondsPerDay: int := 24 * 60 * 60

  type Bytes = seq<bv8>

  /** What a caller hands to `save_to_cache`: any value for "json", bytes for the other formats. */
  datatype Value<D> = Data(d: D) | Blob(bytes: Bytes)

  /** The dictionary a "json" entry pickles: `{'data': ..., 'timestamp': ..., 'hash': ...}`. */
  datatype Wrapper<D> = Wrapper(data: Value<D>, timestamp: string, hash: string)

  /**
   * `pickle.dump` and `pickle.load` of a wrapper. `load` gives `None` where
   * unpickling raises `PickleError` or `EOFError`, or the result lacks a key.
   */
  datatype Codec<!D> = Codec(dump: Wrapper<D> -> Bytes, load: Bytes -> Option<Wrapper<D>>)

  ghost predicate Faithful<D(!new)>(c: Codec<D>) {
    forall w :: c.load(c.dump(w)) == Some(w)
  }

  /** A file of the cache directory: its bytes, its modification time, and whether reading it succeeds. */
  datatype File = File(bytes: Bytes, mtime: int, readable: bool)

  type Dir = map<string, File>

  /** `get_cache_path`: both branches give `{key}.{format}` in the cache directory. */
  function CachePath(key: string, format: string): (p: string)
    ensures |p| == |key| + 1 + |format| && p[..|key|] == key && p[|key|] == '.' && p[|key| + 1..] == format
  {
    key + "." + format
  }

  /** `file_age > settings.CACHE_EXPIRY`, with the age taken at `now`. */
  predicate Expired(f: File, now: int) {
    now - f.mtime > CacheExpiry
  }

  /** The bytes `save_to_cache` writes. */
  function Encoded<D>(codec: Codec<D>, data: Value<D>, key: string, format: string, stamp: string): Bytes
    requires format == "json" || data.Blob?
  {
    if format == "json" then codec.dump(Wrapper(data, stamp, key)) else data.bytes
  }

  /** The directory after `save_to_cache`: the entry's file is written afresh at `now`. */
  function Saved<D>(dir: Dir, codec: Codec<D>, data: Value<D>, key: string, format: string, now: int, stamp: string): (d: Dir)
    requires format == "json" || data.Blob?
    ensures d.Keys == dir.Keys + {CachePath(key, format)}
  {
    dir[CachePath(key, format) := File(Encoded(codec, data, key, format, stamp), now, true)]
  }

  /**
   * What reading a present, unexpired file gives: `None` when unpickling fails
   * or, for the other formats, when the read raises `IOError`.
   */
  function Decoded<D>(codec: Codec<D>, f: File, format: string): Option<Value<D>> {
    if format == "json" then
      if codec.load(f.bytes).Some? then Some(codec.load(f.bytes).value.data) else None
    else if f.readable then Some(Blob(f.bytes))
    else None
  }

  /** The value `load_from_cache` returns. */
  function Loaded<D>(dir: Dir, codec: Codec<D>, key: string, format: string, now: int): Option<Value<D>> {
    var p := CachePath(key, format);
    if p !in dir || Expired(dir[p], now) then None else Decoded(codec, dir[p], format)
  }

  /** `load_from_cache` unlinks the file when it has expired or cannot be decoded. */
  predicate LoadDeletes<D>(dir: Dir, codec: Codec<D>, key: string, format: string, now: int) {
    var p := CachePath(key, format);
    p in dir && (Expired(dir[p], now) || Decoded(codec, dir[p], format).None?)
  }

  function AfterLoad<D>(dir: Dir, codec: Codec<D>, key: string, format: string, now: int): (d: Dir)
    ensures d.Keys <= dir.Keys
  {
    if LoadDeletes(dir, codec, key, format, now) then dir - {CachePath(key, format)} else dir
  }

  /** `get_cache_metadata`, which never changes the directory. */
  datatype Metadata = Metadata(fileHash: string, format: string, size: nat, createdAt: Option<string>,
                               modifiedAt: int, ageDays: int, expired: bool)

  function MetadataOf<D>(dir: Dir, codec: Codec<D>, key: string, format: string, now: int): (m: Option<Metadata>)
    ensures m.Some? <==> CachePath(key, format) in dir
  {
    var p := CachePath(key, format);
    if p !in dir then None
    else
      var f := dir[p];
      var created := if format == "json" && f.readable && codec.load(f.bytes).Some?
                     then Some(codec.load(f.bytes).value.timestamp) else None;
      Some(Metadata(key, format, |f.bytes|, created, f.mtime, (now - f.mtime) / SecondsPerDay, Expired(f, now)))
  }

  /** The cache directory. */
  class Store<D> {
    var files: Dir
    const codec: Codec<D>

    constructor (codec: Codec<D>)
      ensures files == map[] && this.codec == codec
    {
      files := map[];
      this.codec := codec;
    }

    /** `save_to_cache`. */
    method Save(data: Value<D>, key: string, format: string, now: int, stamp: string)
      requires format == "json" || data.Blob?
      modifies this
      ensures files == Saved(old(files), codec, data, key, format, now, stamp)
    {
      var p := CachePath(key, format);
      var bytes: Bytes;
      if format == "json" {
        bytes := codec.dump(Wrapper(data, stamp, key));
      } else {
        bytes := data.bytes;
      }
      files := files[p := File(bytes, now, true)];
    }

    /** `load_from_cache`. */
    method Load(key: string, format: string, now: int) returns (r: Option<Value<D>>)
      modifies this
      ensures r == Loaded(old(files), codec, key, format, now)
      ensures files == AfterLoad(old(files), codec, key, format, now)
    {
      var p := CachePath(key, format);
      if p !in files {
        return None;
      }
      var f := files[p];
      if Expired(f, now) {
        files := files - {p};
        return None;
      }
      if format == "json" {
        if codec.load(f.bytes).Some? {
          return Some(codec.load(f.bytes).value.data);
        }
        files := files - {p};
        return None;
      } else {
        if f.readable {
          return Some(Blob(f.bytes));
        }
        files := files - {p};
        return None;
      }
    }

    /** `delete_from_cache`: true exactly when the file was there. */
    method Delete(key: string, format: string) returns (deleted: bool)
      modifies this
      ensures deleted <==> CachePath(key, format) in old(files)
      ensures files == old(files) - {CachePath(key, format)}
    {
      var p := CachePath(key, format);
      if p in files {
        files := files - {p};
        return true;
      }
      return false;
    }

    /** `check_file_cache`: the count of a usable "json" entry, which `length` measures. */
    method CheckFileCache(key: string, now: int, length: Value<D> -> nat) returns (snpCount: Option<nat>)
      modifies this
      ensures snpCount.Some? <==> Loaded(old(files), codec, key, "json", now).Some?
      ensures snpCount.Some? ==> snpCount.value == length(Loaded(old(files), codec, key, "json", now).value)
      ensures files == AfterLoad(old(files), codec, key, "json", now)
    {
      var cached := Load(key, "json", now);
      if cached.Some? {
        return Some(length(cached.value));
      }
      return None;
    }
  }

  // ---------------------------------------------------------------------------
  // Properties
  // ---------------------------------------------------------------------------

  /** Two entries share a file only when key and format agree, given keys of equal length (hashes). */
  lemma CachePathInjective(k1: string, f1: string, k2: string, f2: string)
    requires |k1| == |k2|
    requires CachePath(k1, f1) == CachePath(k2, f2)
    ensures k1 == k2 && f1 == f2
  {
    var p := CachePath(k1, f1);
    assert k1 == p[..|k1|];
    assert f1 == p[|k1| + 1..];
  }

  /** The same key under two formats names two different files. */
  lemma FormatsSeparate(key: string, f1: string, f2: string)
    requires f1 != f2
    ensures CachePath(key, f1) != CachePath(key, f2)
  {
    if CachePath(key, f1) == CachePath(key, f2) {
      CachePathInjective(key, f1, key, f2);
    }
  }

  /** A saved entry loads back as the saved value until it expires. */
  lemma SaveThenLoad<D(!new)>(dir: Dir, codec: Codec<D>, data: Value<D>, key: string, format: string, saved: int, now: int, stamp: string)
    requires Faithful(codec)
    requires format == "json" || data.Blob?
    requires now - saved <= CacheExpiry
    ensures Loaded(Saved(dir, codec, data, key, format, saved, stamp), codec, key, format, now) == Some(data)
    ensures !LoadDeletes(Saved(dir, codec, data, key, format, saved, stamp), codec, key, format, now)
  {
    var w := Wrapper(data, stamp, key);
    assert codec.load(codec.dump(w)) == Some(w);
  }

  /** Past the expiry the entry is gone: `None`, and the file is unlinked. */
  lemma ExpiredLoadDeletes<D>(dir: Dir, codec: Codec<D>, key: string, format: string, now: int)
    requires CachePath(key, format) in dir && Expired(dir[CachePath(key, format)], now)
    ensures Loaded(dir, codec, key, format, now) == None
    ensures CachePath(key, format) !in AfterLoad(dir, codec, key, format, now)
  {
  }

  /** Loading never yields a value without leaving the file in place, and never touches another file. */
  lemma LoadKeepsOthers<D>(dir: Dir, codec: Codec<D>, key: string, format: string, now: int, p: string)
    requires p != CachePath(key, format) && p in dir
    ensures p in AfterLoad(dir, codec, key, format, now) && AfterLoad(dir, codec, key, format, now)[p] == dir[p]
  {
  }

  /** A value comes back exactly when the file is present, unexpired and decodable; then the file stays. */
  lemma LoadedExactly<D>(dir: Dir, codec: Codec<D>, key: string, format: string, now: int)
    ensures Loaded(dir, codec, key, format, now).Some? <==> (CachePath(key, format) in dir && !LoadDeletes(dir, codec, key, format, now))
    ensures Loaded(dir, codec, key, format, now).Some? ==> AfterLoad(dir, codec, key, format, now) == dir
  {
  }

  /** The metadata flags expiry with the same strict threshold as loading. */
  lemma MetadataAgreesWithLoad<D>(dir: Dir, codec: Codec<D>, key: string, format: string, now: int)
    requires CachePath(key, format) in dir
    ensures MetadataOf(dir, codec, key, format, now).value.expired ==> Loaded(dir, codec, key, format, now).None?
    ensures MetadataOf(dir, codec, key, format, now).value.expired == Expired(dir[CachePath(key, format)], now)
  {
  }

  /** An entry is not yet expired at exactly seven days of age, and is one second later. */
  lemma ExpiryIsStrict(f: File)
    ensures !Expired(f, f.mtime + CacheExpiry)
    ensures Expired(f, f.mtime + CacheExpiry + 1)
  {
  }
}
