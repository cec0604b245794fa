/**
 * An abstract file system: regular files keyed by their path (a sequence of
 * segments) and a set of directories. It stands in for `os.makedirs`,
 * `os.path.exists`, `shutil.copy` and `os.utime`.
 */
module FileSystem {
  import opened Wrappers

  type Segment = string
  type Path = seq<Segment>
  type Byte = b: int | 0 <= b < 256

  /** A regular file: its contents and its modification and access times. */
  datatype FileRec = FileRec(data: seq<Byte>, mtime: int, atime: int)

  datatype FS = FS(files: map<Path, FileRec>, dirs: set<Path>)

  /** `os.path.exists`: true for regular files and for directories. */
  predicate Exists(fs: FS, p: Path)
  {
    p in fs.files || p in fs.dirs
  }

  /** The non-empty prefixes of `p`, `p` included: the directories `os.makedirs(p)` brings into being. */
  function Prefixes(p: Path): set<Path>
  {
    set k | 1 <= k <= |p| :: p[..k]
  }

  lemma PrefixesShape(p: Path, q: Path)
    ensures q in Prefixes(p) <==> 1 <= |q| <= |p| && q == p[..|q|]
  {
    if 1 <= |q| <= |p| && q == p[..|q|] {
      assert p[..|q|] in Prefixes(p);
    }
  }

  /** Some prefix of `p`, `p` included, is a regular file, so no directory can be made at `p`. */
  predicate Blocked(fs: FS, p: Path)
  {
    exists k :: 1 <= k <= |p| && p[..k] in fs.files
  }

  /**
   * `os.makedirs(p, exist_ok=True)`: fails when `p` or one of its ancestors
   * is a regular file; otherwise `p` and all its ancestors are directories
   * afterwards, nothing else is created, and no file changes.
   */
  function MakeDirs(fs: FS, p: Path): (r: Option<FS>)
    ensures r.None? <==> Blocked(fs, p)
    ensures r.Some? ==> r.value.files == fs.files
    ensures r.Some? ==> fs.dirs <= r.value.dirs
    ensures r.Some? ==> forall k :: 1 <= k <= |p| ==> p[..k] in r.value.dirs
    ensures r.Some? ==> forall q :: q in r.value.dirs && q !in fs.dirs ==> 1 <= |q| <= |p| && q == p[..|q|]
  {
    if Blocked(fs, p) then None
    else
      var r := FS(fs.files, fs.dirs + Prefixes(p));
      assert forall q :: q in r.dirs && q !in fs.dirs ==> 1 <= |q| <= |p| && q == p[..|q|] by {
        forall q | q in r.dirs && q !in fs.dirs
          ensures 1 <= |q| <= |p| && q == p[..|q|]
        {
          PrefixesShape(p, q);
        }
      }
      Some(r)
  }

  /** `exist_ok=True`: making the same directories again changes nothing. */
  lemma MakeDirsIdempotent(fs: FS, p: Path)
    requires MakeDirs(fs, p).Some?
    ensures MakeDirs(MakeDirs(fs, p).value, p) == MakeDirs(fs, p)
  {
    var fs1 := MakeDirs(fs, p).value;
    assert fs1.dirs + Prefixes(p) == fs1.dirs;
  }

  /** Making directories only grows the tree. */
  lemma MakeDirsGrows(fs: FS, p: Path)
    requires MakeDirs(fs, p).Some?
    ensures Grows(fs, MakeDirs(fs, p).value)
  {
  }

  /**
   * Once `p` and its ancestors are directories and none is a regular file,
   * a tree grown from there still has them, and making `p` again changes
   * nothing.
   */
  lemma MakeDirsAfterGrowth(fs: FS, later: FS, p: Path)
    requires forall k :: 1 <= k <= |p| ==> p[..k] in fs.dirs && p[..k] !in fs.files
    requires Grows(fs, later)
    ensures MakeDirs(later, p) == Some(later)
  {
    assert !Blocked(later, p);
    assert later.dirs + Prefixes(p) == later.dirs by {
      forall q | q in Prefixes(p) ensures q in later.dirs {
        PrefixesShape(p, q);
      }
    }
  }

  /** Some proper ancestor of `p` is a regular file. */
  predicate UnderFile(fs: FS, p: Path)
  {
    exists k :: 1 <= k < |p| && p[..k] in fs.files
  }

  /** What `shutil.copy` followed by `os.utime` reports. */
  datatype CopyResult =
    | Written(fs: FS)
    | NoSuchFile      // FileNotFoundError
    | ReadError       // any other OSError: the source is a directory, or lies under a regular file

  /**
   * `shutil.copy(src, dst)` then `os.utime(dst, (time, time))`, for a
   * destination whose folder exists. A regular file at `src` is copied:
   * `dst` gets its bytes, and both of its timestamps become `time`. Nothing
   * else changes. Otherwise nothing is written, and the error says whether
   * there was nothing at `src` at all.
   */
  function CopyWithTimes(fs: FS, src: Path, dst: Path, time: int): (r: CopyResult)
    ensures r.Written? <==> src in fs.files
    ensures r.Written? ==> r.fs.dirs == fs.dirs
    ensures r.Written? ==> dst in r.fs.files && r.fs.files[dst] == FileRec(fs.files[src].data, time, time)
    ensures r.Written? ==> forall p :: p != dst ==> (p in r.fs.files <==> p in fs.files)
    ensures r.Written? ==> forall p :: p != dst && p in fs.files ==> r.fs.files[p] == fs.files[p]
    ensures r.NoSuchFile? <==> src !in fs.files && src !in fs.dirs && !UnderFile(fs, src)
  {
    if src in fs.files then
      Written(FS(fs.files[dst := FileRec(fs.files[src].data, time, time)], fs.dirs))
    else if src in fs.dirs || UnderFile(fs, src) then ReadError
    else NoSuchFile
  }

  /**
   * The destination tree only grows: every file keeps its record, every
   * directory stays, and new files appear only where nothing was.
   */
  predicate Grows(fs: FS, fs': FS)
  {
    && (forall p :: p in fs.files ==> p in fs'.files && fs'.files[p] == fs.files[p])
    && fs.dirs <= fs'.dirs
    && (forall p :: p in fs'.files && p !in fs.files ==> p !in fs.dirs)
  }

  lemma GrowsTransitive(a: FS, b: FS, c: FS)
    requires Grows(a, b) && Grows(b, c)
    ensures Grows(a, c)
  {
  }

  /** Every file of `fs'` that `fs` lacks sits at one of `targets`. */
  predicate NewFilesWithin(fs: FS, fs': FS, targets: set<Path>)
  {
    forall p :: p in fs'.files && p !in fs.files ==> p in targets
  }
}
