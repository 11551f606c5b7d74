/**
 * The file system as the asset cache sees it: a map from path to an entry
 * that is a regular file, a directory or some other kind of node, with its
 * bytes and its last-write time. Directory listing, `stat`, `file_size` and
 * substring search on paths are stated here once for the cache and the file
 * handle to share.
 */
module FileStore {

  type byte = bv8
  type Path = string

  datatype Kind = Regular | Directory | Special

  /** What `stat` knows about one path: its kind, its contents and its last-write time. */
  datatype Entry = Entry(kind: Kind, bytes: seq<byte>, mtime: int)

  type Files = map<Path, Entry>

  /** The mutable file system shared by the cache and every file handle. */
  class Disk {
    var files: Files

    constructor (files: Files)
      ensures this.files == files
    {
      this.files := files;
    }
  }

  predicate IsRegularFile(files: Files, p: Path) {
    p in files && files[p].kind == Regular
  }

  predicate IsDirectory(files: Files, p: Path) {
    p in files && files[p].kind == Directory
  }

  /** The size `stat` reports for p; a path that cannot be stat'ed counts as 0. */
  function FileSize(files: Files, p: Path): nat {
    if p in files then |files[p].bytes| else 0
  }

  /** `sub` occurs in `s` starting at index i. */
  predicate OccursAt(s: string, sub: string, i: nat) {
    i + |sub| <= |s| && s[i..i + |sub|] == sub
  }

  /** `s.find(sub) != npos`. */
  predicate Contains(s: string, sub: string) {
    exists i: nat :: i <= |s| && OccursAt(s, sub, i)
  }

  lemma ContainsMiddle(a: string, sub: string, b: string)
    ensures Contains(a + sub + b, sub)
  {
    var s := a + sub + b;
    assert s[|a|..|a| + |sub|] == sub;
    assert OccursAt(s, sub, |a|);
  }

  /**
   * p is listed by a directory iterator over dir: dir, then the delimiter,
   * then a non-empty name holding no delimiter.
   */
  predicate InDirectory(dir: Path, delim: char, p: Path) {
    |p| > |dir| + 1 && p[..|dir|] == dir && p[|dir|] == delim && delim !in p[|dir| + 1..]
  }

  /** The entries a directory iterator over dir visits. */
  function Listing(files: Files, dir: Path, delim: char): (ps: set<Path>)
    ensures forall p :: p in ps <==> p in files && InDirectory(dir, delim, p)
  {
    set p | p in files && InDirectory(dir, delim, p)
  }

  /** The sum of the sizes of a set of paths. */
  ghost function TotalSize(files: Files, ps: set<Path>): nat
  {
    if ps == {} then 0
    else
      var p :| p in ps;
      FileSize(files, p) + TotalSize(files, ps - {p})
  }

  /** Any element may be taken out first: the sum does not depend on the order. */
  lemma {:induction false} TotalSizeRemove(files: Files, ps: set<Path>, x: Path)
    requires x in ps
    ensures TotalSize(files, ps) == FileSize(files, x) + TotalSize(files, ps - {x})
    decreases ps
  {
    var p :| p in ps && TotalSize(files, ps) == FileSize(files, p) + TotalSize(files, ps - {p});
    if p != x {
      TotalSizeRemove(files, ps - {p}, x);
      TotalSizeRemove(files, ps - {x}, p);
      assert ps - {p} - {x} == ps - {x} - {p};
    }
  }

  /** Sizes are read from the map only at the summed paths. */
  lemma {:induction false} TotalSizeAgree(f: Files, g: Files, ps: set<Path>)
    requires forall p :: p in ps ==> FileSize(f, p) == FileSize(g, p)
    ensures TotalSize(f, ps) == TotalSize(g, ps)
    decreases ps
  {
    if ps != {} {
      var p :| p in ps;
      TotalSizeRemove(f, ps, p);
      TotalSizeRemove(g, ps, p);
      TotalSizeAgree(f, g, ps - {p});
    }
  }
}
