// endpoints/dna.py: `upload_dna_file` (lines 18-94) stores an uploaded text
// file under a name prefixed with its digest in the uploads directory and in
// the uploads cache directory, through a temporary file removed at the end;
// `list_uploaded_files` (lines 118-182) lists the uploads directory newest
// first, one page at a time. The file system is a map from path to bytes;
// sha256, md5, the temporary file's name, the clock and whether each write
// succeeds are passed in.
module DnaEndpoint {
  import opened Wrappers
  import opened Seqs
  import opened PyStr
  import opened CacheStore
  import Sorting
  import CacheService
  import DnaService

  // ---------------------------------------------------------------------------
  // upload_dna_file
  // ---------------------------------------------------------------------------

  datatype UploadResponse = UploadResponse(filename: string, safeFilename: string, fileHash: string, status: string,
                                           size: nat, uploadsPath: string, cachePath: string, message: string,
                                           timestamp: string)

  datatype Cause =
    | NotTxt                   // the name does not end in ".txt"
    | WriteFailed(path: string) // opening or writing a destination raised

  datatype Failure = Failure(status: nat, cause: Cause)

  /**
   * The rest of the world: sha256 as a hex digest, the two directories, the
   * temporary file's path, whether each destination can be written, and the
   * ISO timestamp of the response.
   */
  datatype UploadEnv = UploadEnv(sha: Bytes -> string, uploadsDir: string, uploadsCacheDir: string, tempPath: string,
                                 uploadsWriteOk: bool, cacheWriteOk: bool, stamp: string)

  type Files = map<string, Bytes>

  /** `f"{file_hash[:8]}_{file.filename}"`. */
  function SafeFilename(hash: string, filename: string): string {
    DnaService.HashPrefix(hash) + "_" + filename
  }

  /** `Path(directory) / name`. */
  function PathIn(directory: string, name: string): string {
    directory + "/" + name
  }

  /** The try block of lines 39-85, after the temporary file is written. */
  function Stored(files: Files, filename: string, content: Bytes, env: UploadEnv): (Result<UploadResponse, Failure>, Files) {
    var hash := env.sha(content);
    var safe := SafeFilename(hash, filename);
    var uploadsPath := PathIn(env.uploadsDir, safe);
    var cachePath := PathIn(env.uploadsCacheDir, safe);
    if !env.uploadsWriteOk then (Err(Failure(500, WriteFailed(uploadsPath))), files)
    else if !env.cacheWriteOk then (Err(Failure(500, WriteFailed(cachePath))), files[uploadsPath := content])
    else
      (Ok(UploadResponse(filename, safe, hash, "success", |content|, uploadsPath, cachePath,
                         "File uploaded and cached successfully", env.stamp)),
       files[uploadsPath := content][cachePath := content])
  }

  /** `upload_dna_file`: the extension check, the temporary file, the try block, and the `finally` that removes it. */
  function Uploaded(files: Files, filename: string, content: Bytes, env: UploadEnv): (Result<UploadResponse, Failure>, Files) {
    if !EndsWith(filename, ".txt") then (Err(Failure(400, NotTxt)), files)
    else
      var s := Stored(files[env.tempPath := content], filename, content, env);
      (s.0, s.1 - {env.tempPath})
  }

  /** The file system. */
  class Disk {
    var files: Files

    constructor (files: Files)
      ensures this.files == files
    {
      this.files := files;
    }

    /** `open(path, "wb").write(bytes)`. */
    method Write(path: string, bytes: Bytes)
      modifies this
      ensures files == old(files)[path := bytes]
    {
      files := files[path := bytes];
    }

    /** `if os.path.exists(path): os.unlink(path)`. */
    method RemoveIfExists(path: string)
      modifies this
      ensures files == old(files) - {path}
    {
      if path in files {
        files := files - {path};
      }
    }
  }

  /** Lines 39-85. */
  method StoreUpload(disk: Disk, filename: string, content: Bytes, env: UploadEnv) returns (r: Result<UploadResponse, Failure>)
    modifies disk
    ensures (r, disk.files) == Stored(old(disk.files), filename, content, env)
  {
    var hash := env.sha(content);
    var safe := SafeFilename(hash, filename);
    var uploadsPath := PathIn(env.uploadsDir, safe);
    if !env.uploadsWriteOk {
      return Err(Failure(500, WriteFailed(uploadsPath)));
    }
    disk.Write(uploadsPath, content);
    var cachePath := PathIn(env.uploadsCacheDir, safe);
    if !env.cacheWriteOk {
      return Err(Failure(500, WriteFailed(cachePath)));
    }
    disk.Write(cachePath, content);
    return Ok(UploadResponse(filename, safe, hash, "success", |content|, uploadsPath, cachePath,
                             "File uploaded and cached successfully", env.stamp));
  }

  /** `upload_dna_file`. */
  method UploadDnaFile(disk: Disk, filename: string, content: Bytes, env: UploadEnv) returns (r: Result<UploadResponse, Failure>)
    modifies disk
    ensures (r, disk.files) == Uploaded(old(disk.files), filename, content, env)
  {
    if !EndsWith(filename, ".txt") {
      return Err(Failure(400, NotTxt));
    }
    disk.Write(env.tempPath, content);
    r := StoreUpload(disk, filename, content, env);
    disk.RemoveIfExists(env.tempPath);
  }

  /** A name without ".txt" is refused with 400 and nothing is written, not even the temporary file. */
  lemma NonTxtRejected(files: Files, filename: string, content: Bytes, env: UploadEnv)
    ensures var u := Uploaded(files, filename, content, env);
            (u.0.Err? && u.0.error.status == 400 <==> !EndsWith(filename, ".txt")) &&
            (!EndsWith(filename, ".txt") ==> u.1 == files)
  {
  }

  /**
   * Whatever happens after the extension check, the temporary file is gone, and every
   * other path holds either what it held or the uploaded bytes.
   */
  lemma TempFileRemoved(files: Files, filename: string, content: Bytes, env: UploadEnv)
    requires EndsWith(filename, ".txt")
    ensures var u := Uploaded(files, filename, content, env);
            env.tempPath !in u.1 &&
            forall p :: p in u.1 ==> (p in files && u.1[p] == files[p]) || u.1[p] == content
  {
  }

  /**
   * A successful upload leaves the same bytes under the safe name in both
   * directories (paths distinct from the temporary file) and touches nothing else.
   */
  lemma UploadStoresBoth(files: Files, filename: string, content: Bytes, env: UploadEnv)
    requires var safe := SafeFilename(env.sha(content), filename);
             env.tempPath != PathIn(env.uploadsDir, safe) && env.tempPath != PathIn(env.uploadsCacheDir, safe)
    ensures var u := Uploaded(files, filename, content, env);
            var safe := SafeFilename(env.sha(content), filename);
            var up, cp := PathIn(env.uploadsDir, safe), PathIn(env.uploadsCacheDir, safe);
            u.0.Ok? ==>
              u.0.value.safeFilename == safe && u.0.value.fileHash == env.sha(content) && u.0.value.size == |content| &&
              up in u.1 && cp in u.1 && u.1[up] == content && u.1[cp] == content &&
              u.1.Keys == (files.Keys - {env.tempPath}) + {up, cp} &&
              forall p :: p in files && p != up && p != cp && p != env.tempPath ==> u.1[p] == files[p]
  {
  }

  /**
   * The safe name is the digest's first eight characters, "_" and the given
   * name; so a ".txt" upload is among the files the lookup by that digest globs.
   */
  lemma SafeFilenameFoundByHash(hash: string, filename: string)
    requires EndsWith(filename, ".txt")
    ensures var safe := SafeFilename(hash, filename);
            var prefix := DnaService.HashPrefix(hash);
            |prefix| == (if |hash| < 8 then |hash| else 8) && prefix == hash[..|prefix|] &&
            safe[|prefix| + 1..] == filename &&
            DnaService.GlobMatch(safe, prefix)
  {
    var safe := SafeFilename(hash, filename);
    var prefix := DnaService.HashPrefix(hash);
    assert safe == (prefix + "_") + filename;
    assert safe[..|prefix| + 1] == prefix + "_";
    assert safe[|safe| - 4..] == filename[|filename| - 4..];
  }

  /** Under one digest, different names are stored under different safe names. */
  lemma SafeFilenameInjective(hash: string, a: string, b: string)
    requires a != b
    ensures SafeFilename(hash, a) != SafeFilename(hash, b)
  {
    var n := |DnaService.HashPrefix(hash)| + 1;
    assert SafeFilename(hash, a)[n..] == a;
    assert SafeFilename(hash, b)[n..] == b;
  }

  // ---------------------------------------------------------------------------
  // list_uploaded_files
  // ---------------------------------------------------------------------------

  /** One entry of the uploads directory with its `stat()`. */
  datatype DirEntry = DirEntry(name: string, isDir: bool, size: nat, ctime: int, mtime: int)

  /** The `file_info` dict; times are the seconds the ISO strings are made from. */
  datatype FileInfo = FileInfo(filename: string, path: string, size: nat, createdAt: int, modifiedAt: int,
                               fileHash: string, extension: string)

  datatype Listing =
    | NoDirectory                      // the early return when the directory does not exist
    | Page(files: seq<FileInfo>, count: nat, limit: int, offset: int, directory: string)

  /** `Path.suffix.lstrip('.')`: what follows the last '.', unless that dot starts or ends the name. */
  function Extension(name: string): (e: string)
    ensures '.' !in e
  {
    var i := CacheService.RFindDot(name);
    if 0 < i < |name| - 1 then name[i + 1..] else ""
  }

  /** `glob("*.*")` keeps the names holding a '.'; directories are then skipped. */
  function InfoOf(directory: string, md5: string -> string): DirEntry -> Option<FileInfo> {
    (e: DirEntry) => if '.' in e.name && !e.isDir
         then Some(FileInfo(e.name, PathIn(directory, e.name), e.size, e.ctime, e.mtime, md5(e.name), Extension(e.name)))
         else None
  }

  /** `all_files` before sorting. */
  function AllFiles(entries: seq<DirEntry>, directory: string, md5: string -> string): seq<FileInfo> {
    FilterMap(entries, InfoOf(directory, md5))
  }

  /** `key=lambda x: x["modified_at"], reverse=True`. */
  predicate NewerFirst(a: FileInfo, b: FileInfo) {
    a.modifiedAt > b.modifiedAt
  }

  /** `list_uploaded_files(limit, offset)` on a listing of the directory, or on its absence. */
  function Listed(entries: Option<seq<DirEntry>>, directory: string, md5: string -> string, limit: int, offset: int): Listing {
    if entries.None? then NoDirectory
    else
      var all := Sorting.StableSort(AllFiles(entries.value, directory, md5), NewerFirst);
      Page(PySlice(all, offset, offset + limit), |all|, limit, offset, directory)
  }

  /** `list_uploaded_files`. */
  method ListUploadedFiles(entries: Option<seq<DirEntry>>, directory: string, md5: string -> string, limit: int, offset: int)
    returns (r: Listing)
    ensures r == Listed(entries, directory, md5, limit, offset)
  {
    if entries.None? {
      return NoDirectory;
    }
    var es := entries.value;
    var all: seq<FileInfo> := [];
    var i := 0;
    while i < |es|
      invariant 0 <= i <= |es|
      invariant all == AllFiles(es[..i], directory, md5)
    {
      var e := es[i];
      assert es[..i + 1] == es[..i] + [e];
      FilterMapSnoc(es[..i], e, InfoOf(directory, md5));
      if '.' in e.name && !e.isDir {
        all := all + [FileInfo(e.name, PathIn(directory, e.name), e.size, e.ctime, e.mtime, md5(e.name), Extension(e.name))];
      }
      i := i + 1;
    }
    assert es[..i] == es;
    all := Sorting.StableSort(all, NewerFirst);
    return Page(PySlice(all, offset, offset + limit), |all|, limit, offset, directory);
  }

  lemma NewerFirstIsStrictWeak()
    ensures Sorting.StrictWeak(NewerFirst)
  {
  }

  /**
   * The page: `count` is every dotted non-directory entry, before pagination;
   * the files are the sorted list from `offset` on, at most `limit` of them,
   * newest first.
   */
  lemma ListedPage(entries: seq<DirEntry>, directory: string, md5: string -> string, limit: nat, offset: nat)
    ensures var l := Listed(Some(entries), directory, md5, limit, offset);
            var all := Sorting.StableSort(AllFiles(entries, directory, md5), NewerFirst);
            l.Page? && l.count == |AllFiles(entries, directory, md5)| &&
            multiset(all) == multiset(AllFiles(entries, directory, md5)) &&
            (offset <= |all| ==> l.files == all[offset..if offset + limit <= |all| then offset + limit else |all|]) &&
            (offset > |all| ==> l.files == []) &&
            forall i, j :: 0 <= i < j < |l.files| ==> l.files[i].modifiedAt >= l.files[j].modifiedAt
  {
    var all := Sorting.StableSort(AllFiles(entries, directory, md5), NewerFirst);
    NewerFirstIsStrictWeak();
    Sorting.StableSortSorted(AllFiles(entries, directory, md5), NewerFirst);
    var l := Listed(Some(entries), directory, md5, limit, offset);
    if offset <= |all| {
      var hi := if offset + limit <= |all| then offset + limit else |all|;
      forall i, j | 0 <= i < j < |l.files| ensures l.files[i].modifiedAt >= l.files[j].modifiedAt {
        assert l.files[i] == all[offset + i] && l.files[j] == all[offset + j];
      }
    }
  }

  /**
   * Every listed file is a non-directory entry of the directory holding a '.',
   * and its `file_hash` is the md5 of its name, not a digest of its content.
   */
  lemma ListedFromEntries(entries: seq<DirEntry>, directory: string, md5: string -> string, f: FileInfo)
    requires f in AllFiles(entries, directory, md5)
    ensures f.fileHash == md5(f.filename) && f.path == PathIn(directory, f.filename) &&
            exists i :: 0 <= i < |entries| && entries[i].name == f.filename && !entries[i].isDir && '.' in entries[i].name &&
                        entries[i].size == f.size && entries[i].mtime == f.modifiedAt
  {
    FilterMapMember(entries, InfoOf(directory, md5), f);
  }

  /** Consecutive pages of the same listing put back together give the longer page. */
  lemma PagesConcatenate(all: seq<FileInfo>, offset: nat, a: nat, b: nat)
    ensures PySlice(all, offset, offset + a) + PySlice(all, offset + a, offset + a + b) == PySlice(all, offset, offset + a + b)
  {
  }
}
