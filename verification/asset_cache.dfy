/**
 * The file-backed asset cache (LLDiskCache): where an asset's file lives,
 * which directory entries belong to the cache, and the operations that
 * purge, clear and measure the cache directory.
 */
module AssetCache {
  import opened FileStore
  import opened Eviction

  /**
   * The asset types the cache names, in the order of its name table, and
   * `Unlisted` for every other asset type value (AT_NONE, AT_MATERIAL, ...).
   */
  datatype AssetType =
    | Texture | Sound | CallingCard | Landmark | Script | Clothing | Object | Notecard
    | Category | LslText | LslBytecode | TextureTga | Bodypart | SoundWav | ImageTga
    | ImageJpeg | Animation | Gesture | Simstate | Link | LinkFolder | MarketplaceFolder
    | Widget | Person | Mesh | Settings | Unknown
    | Unlisted(code: int)

  datatype Option<T> = None | Some(value: T)

  /** The cache's name for an asset type; every type outside the table is "UNKNOWN". */
  function AssetTypeToString(at: AssetType): (name: string)
    ensures name == "UNKNOWN" <==> at.Unknown? || at.Unlisted?
    ensures |name| > 0
  {
    match at
    case Texture => "TEXTURE"
    case Sound => "SOUND"
    case CallingCard => "CALLINGCARD"
    case Landmark => "LANDMARK"
    case Script => "SCRIPT"
    case Clothing => "CLOTHING"
    case Object => "OBJECT"
    case Notecard => "NOTECARD"
    case Category => "CATEGORY"
    case LslText => "LSL_TEXT"
    case LslBytecode => "LSL_BYTECODE"
    case TextureTga => "TEXTURE_TGA"
    case Bodypart => "BODYPART"
    case SoundWav => "SOUND_WAV"
    case ImageTga => "IMAGE_TGA"
    case ImageJpeg => "IMAGE_JPEG"
    case Animation => "ANIMATION"
    case Gesture => "GESTURE"
    case Simstate => "SIMSTATE"
    case Link => "LINK"
    case LinkFolder => "LINK_FOLDER"
    case MarketplaceFolder => "MARKETPLACE_FOLDER"
    case Widget => "WIDGET"
    case Person => "PERSON"
    case Mesh => "MESH"
    case Settings => "SETTINGS"
    case Unknown => "UNKNOWN"
    case Unlisted(_) => "UNKNOWN"
  }

  /**
   * Reads a type name back, looking at its first letter and then at the
   * names that begin with it: the reference against which the table is checked.
   */
  function AssetTypeFromName(name: string): Option<AssetType> {
    if name == [] then None
    else match name[0]
      case 'A' => if name == "ANIMATION" then Some(Animation) else None
      case 'B' => if name == "BODYPART" then Some(Bodypart) else None
      case 'C' =>
        if name == "CALLINGCARD" then Some(CallingCard)
        else if name == "CLOTHING" then Some(Clothing)
        else if name == "CATEGORY" then Some(Category)
        else None
      case 'G' => if name == "GESTURE" then Some(Gesture) else None
      case 'I' =>
        if name == "IMAGE_TGA" then Some(ImageTga)
        else if name == "IMAGE_JPEG" then Some(ImageJpeg)
        else None
      case 'L' =>
        if name == "LANDMARK" then Some(Landmark)
        else if name == "LSL_TEXT" then Some(LslText)
        else if name == "LSL_BYTECODE" then Some(LslBytecode)
        else if name == "LINK" then Some(Link)
        else if name == "LINK_FOLDER" then Some(LinkFolder)
        else None
      case 'M' =>
        if name == "MARKETPLACE_FOLDER" then Some(MarketplaceFolder)
        else if name == "MESH" then Some(Mesh)
        else None
      case 'N' => if name == "NOTECARD" then Some(Notecard) else None
      case 'O' => if name == "OBJECT" then Some(Object) else None
      case 'P' => if name == "PERSON" then Some(Person) else None
      case 'S' =>
        if name == "SOUND" then Some(Sound)
        else if name == "SCRIPT" then Some(Script)
        else if name == "SOUND_WAV" then Some(SoundWav)
        else if name == "SIMSTATE" then Some(Simstate)
        else if name == "SETTINGS" then Some(Settings)
        else None
      case 'T' =>
        if name == "TEXTURE" then Some(Texture)
        else if name == "TEXTURE_TGA" then Some(TextureTga)
        else None
      case 'U' => if name == "UNKNOWN" then Some(Unknown) else None
      case 'W' => if name == "WIDGET" then Some(Widget) else None
      case _ => None
  }

  /**
   * Every listed type has a name of its own: reading the name back gives the
   * type, and every unlisted type reads back as Unknown.
   */
  lemma AssetTypeNameRoundTrip(at: AssetType)
    ensures AssetTypeFromName(AssetTypeToString(at)) == Some(if at.Unlisted? then Unknown else at)
  {
  }

  /** Two types share a name only when both are named "UNKNOWN". */
  lemma AssetTypeNamesDistinct(a: AssetType, b: AssetType)
    requires AssetTypeToString(a) == AssetTypeToString(b)
    ensures a == b || AssetTypeToString(a) == "UNKNOWN"
  {
    AssetTypeNameRoundTrip(a);
    AssetTypeNameRoundTrip(b);
  }

  /** The cache directory, the platform's directory delimiter and the file name prefix. */
  datatype Layout = Layout(cacheDir: Path, delimiter: char, prefix: string)

  const CacheFilenamePrefix := "sl_cache"

  /** The file name of an asset inside the cache directory. */
  function CacheFileName(layout: Layout, id: string, at: AssetType, extraInfo: string): string {
    layout.prefix + "_" + id + "_" + (if extraInfo == "" then "0" else extraInfo) + "_"
      + AssetTypeToString(at) + ".asset"
  }

  /**
   * The path of an asset's cache file: the cache directory, the delimiter,
   * then a name made of the prefix, the id, the extra info ("0" when empty)
   * and the type's name, joined by '_' and ending in ".asset".
   */
  function MetaDataToFilepath(layout: Layout, id: string, at: AssetType, extraInfo: string): (r: Path)
    ensures |r| >= |layout.cacheDir| + |layout.prefix| + |id| + 11
    ensures r[..|layout.cacheDir|] == layout.cacheDir && r[|layout.cacheDir|] == layout.delimiter
    ensures r[|layout.cacheDir| + 1..|layout.cacheDir| + |layout.prefix| + |id| + 3] == layout.prefix + "_" + id + "_"
    ensures r[|r| - 6..] == ".asset"
    ensures extraInfo == "" ==> r[|layout.cacheDir| + |layout.prefix| + |id| + 3..|layout.cacheDir| + |layout.prefix| + |id| + 5] == "0_"
  {
    var info := if extraInfo == "" then "0" else extraInfo;
    PathParts(layout.cacheDir, layout.delimiter, layout.prefix + "_" + id + "_", info, AssetTypeToString(at));
    layout.cacheDir + [layout.delimiter] + CacheFileName(layout, id, at, extraInfo)
  }

  /** Where the parts of a cache file path sit in it. */
  lemma PathParts(dir: string, delim: char, head: string, info: string, typeName: string)
    ensures var r := dir + [delim] + (head + info + "_" + typeName + ".asset");
      && |r| == |dir| + |head| + |info| + |typeName| + 8
      && r[..|dir|] == dir && r[|dir|] == delim
      && r[|dir| + 1..|dir| + 1 + |head|] == head
      && r[|dir| + 1 + |head|..|dir| + 1 + |head| + |info| + 1] == info + "_"
      && r[|r| - 6..] == ".asset"
  {
    var r := dir + [delim] + (head + info + "_" + typeName + ".asset");
    assert r == dir + [delim] + head + (info + "_") + typeName + ".asset";
  }

  /**
   * An asset's path contains the cache prefix and, when the delimiter does
   * not occur in its file name, is listed in the cache directory.
   */
  lemma CacheFileIsListed(layout: Layout, id: string, at: AssetType, extraInfo: string)
    ensures Contains(MetaDataToFilepath(layout, id, at, extraInfo), layout.prefix)
    ensures layout.delimiter !in CacheFileName(layout, id, at, extraInfo) ==>
      InDirectory(layout.cacheDir, layout.delimiter, MetaDataToFilepath(layout, id, at, extraInfo))
  {
    var name := CacheFileName(layout, id, at, extraInfo);
    var head := layout.cacheDir + [layout.delimiter];
    var tail := name[|layout.prefix|..];
    assert name == layout.prefix + tail;
    assert MetaDataToFilepath(layout, id, at, extraInfo) == head + layout.prefix + tail;
    ContainsMiddle(head, layout.prefix, tail);
    PathInDirectory(layout.cacheDir, layout.delimiter, name);
  }

  /** dir, the delimiter, then a non-empty name free of the delimiter is listed in dir. */
  lemma PathInDirectory(dir: Path, delim: char, name: string)
    requires name != []
    ensures delim !in name ==> InDirectory(dir, delim, dir + [delim] + name)
  {
    var p := dir + [delim] + name;
    assert p[..|dir|] == dir && p[|dir|] == delim && p[|dir| + 1..] == name;
  }

  lemma SplitTail(head: string, u: string, v: string)
    requires head + u == head + v
    ensures u == v
  {
    assert u == (head + u)[|head|..];
    assert v == (head + v)[|head|..];
  }

  /** Two strings free of '_' followed by '_'-led tails split the same way. */
  lemma SplitAtUnderscore(a: string, x: string, b: string, y: string)
    requires '_' !in a && '_' !in b
    requires |x| > 0 && x[0] == '_' && |y| > 0 && y[0] == '_'
    requires a + x == b + y
    ensures a == b && x == y
  {
    assert a == (a + x)[..|a|];
    assert b == (b + y)[..|b|];
    assert x == (a + x)[|a|..];
    assert y == (b + y)[|b|..];
  }

  /** The path of an asset with no extra info: a head shared by all assets, the id, then a '_'-led tail. */
  lemma FilepathParts(layout: Layout, id: string, at: AssetType)
    ensures MetaDataToFilepath(layout, id, at, "")
      == (layout.cacheDir + [layout.delimiter] + layout.prefix + "_") + (id + ("_0_" + AssetTypeToString(at) + ".asset"))
  {
    var n := AssetTypeToString(at);
    assert CacheFileName(layout, id, at, "") == layout.prefix + "_" + id + "_" + "0" + "_" + n + ".asset";
    Regroup(layout.cacheDir + [layout.delimiter], layout.prefix, id, n);
  }

  /** Equal tails carry equal type names. */
  lemma SameTypeName(n1: string, n2: string)
    requires "_0_" + n1 + ".asset" == "_0_" + n2 + ".asset"
    ensures n1 == n2
  {
    var x1 := "_0_" + n1 + ".asset";
    var x2 := "_0_" + n2 + ".asset";
    assert n1 == x1[3..|x1| - 6];
    assert n2 == x2[3..|x2| - 6];
  }

  /** Regrouping the parts of a path with no extra info. */
  lemma Regroup(dir: string, prefix: string, id: string, typeName: string)
    ensures dir + (prefix + "_" + id + "_" + "0" + "_" + typeName + ".asset")
      == (dir + prefix + "_") + (id + ("_0_" + typeName + ".asset"))
  {
  }

  /**
   * File handles pass an empty extra-info string, and the text of a UUID has
   * no '_': two assets share a cache file only if they have the same id and
   * the same type name.
   */
  lemma CacheFileInjective(layout: Layout, id1: string, at1: AssetType, id2: string, at2: AssetType)
    requires '_' !in id1 && '_' !in id2
    requires MetaDataToFilepath(layout, id1, at1, "") == MetaDataToFilepath(layout, id2, at2, "")
    ensures id1 == id2
    ensures at1 == at2 || AssetTypeToString(at1) == AssetTypeToString(at2) == "UNKNOWN"
  {
    var head := layout.cacheDir + [layout.delimiter] + layout.prefix + "_";
    var n1 := AssetTypeToString(at1);
    var n2 := AssetTypeToString(at2);
    var x1 := "_0_" + n1 + ".asset";
    var x2 := "_0_" + n2 + ".asset";
    FilepathParts(layout, id1, at1);
    FilepathParts(layout, id2, at2);
    SplitTail(head, id1 + x1, id2 + x2);
    SplitAtUnderscore(id1, x1, id2, x2);
    SameTypeName(n1, n2);
    AssetTypeNamesDistinct(at1, at2);
  }

  /** A regular file directly inside dir whose path contains the cache prefix. */
  predicate IsCachedFile(files: Files, dir: Path, layout: Layout, p: Path) {
    p in files && InDirectory(dir, layout.delimiter, p) && files[p].kind == Regular && Contains(p, layout.prefix)
  }

  /** The entries purge, clearCache and dirFileSize act on; none when dir is not a directory. */
  function Candidates(files: Files, dir: Path, layout: Layout): set<Path> {
    if IsDirectory(files, dir) then set p | p in files && IsCachedFile(files, dir, layout, p) else {}
  }

  /** What dirFileSize reports: the total size of the cache's files in dir. */
  ghost function DirSize(files: Files, dir: Path, layout: Layout): nat {
    TotalSize(files, Candidates(files, dir, layout))
  }

  function InfoOf(files: Files, p: Path): FileInfo
    requires p in files
  {
    FileInfo(files[p].mtime, |files[p].bytes|, p)
  }

  /**
   * The order in which purge visits the cache's files: each candidate exactly
   * once, with its own time and size, newest first. Ties are in any order.
   */
  ghost predicate IsPurgeOrder(order: seq<FileInfo>, files: Files, layout: Layout) {
    && NewestFirst(order)
    && DistinctPaths(order)
    && PathsOf(order) == Candidates(files, layout.cacheDir, layout)
    && forall i :: 0 <= i < |order| ==> order[i].path in files && order[i] == InfoOf(files, order[i].path)
  }

  /** The total size of distinct files is the sum of their sizes. */
  lemma {:induction false} TotalSizeOfDistinct(files: Files, s: seq<FileInfo>)
    requires DistinctPaths(s)
    requires forall i :: 0 <= i < |s| ==> s[i].size == FileSize(files, s[i].path)
    ensures TotalSize(files, PathsOf(s)) == Total(s)
  {
    if s != [] {
      var t := s[1..];
      assert s == [s[0]] + t;
      PathsCons(s[0], t);
      DistinctTail(s);
      forall i | 0 <= i < |t| ensures t[i].size == FileSize(files, t[i].path) {
        assert t[i] == s[i + 1];
      }
      TotalSizeOfDistinct(files, t);
      TotalSizeRemove(files, PathsOf(s), s[0].path);
      assert PathsOf(s) - {s[0].path} == PathsOf(t);
    }
  }

  lemma AppendInfo(s: seq<FileInfo>, x: FileInfo)
    requires DistinctPaths(s) && x.path !in PathsOf(s)
    ensures PathsOf(s + [x]) == PathsOf(s) + {x.path}
    ensures DistinctPaths(s + [x])
  {
    var t := s + [x];
    forall q | q in PathsOf(t) ensures q in PathsOf(s) + {x.path} {
      var i :| 0 <= i < |t| && t[i].path == q;
      if i < |s| { assert t[i] == s[i]; }
    }
    forall q | q in PathsOf(s) ensures q in PathsOf(t) {
      var i :| 0 <= i < |s| && s[i].path == q;
      assert t[i] == s[i];
    }
    assert t[|s|] == x;
    forall i, j | 0 <= i < j < |t| ensures t[i].path != t[j].path {
      assert t[i] == s[i];
      if j < |s| { assert t[j] == s[j]; } else { assert s[i].path in PathsOf(s); }
    }
  }

  lemma PathsSplit(s: seq<FileInfo>, k: nat)
    requires k <= |s| && DistinctPaths(s)
    ensures PathsOf(s) == PathsOf(s[..k]) + PathsOf(s[k..])
    ensures PathsOf(s[..k]) !! PathsOf(s[k..])
  {
    forall p | p in PathsOf(s) ensures p in PathsOf(s[..k]) + PathsOf(s[k..]) {
      var i :| 0 <= i < |s| && s[i].path == p;
      if i < k { assert s[..k][i] == s[i]; } else { assert s[k..][i - k] == s[i]; }
    }
    forall p | p in PathsOf(s[..k]) ensures p in PathsOf(s) && p !in PathsOf(s[k..]) {
      var i :| 0 <= i < k && s[..k][i].path == p;
      assert s[i] == s[..k][i];
      forall j | 0 <= j < |s| - k ensures s[k..][j].path != p {
        assert s[k + j] == s[k..][j];
      }
    }
    forall p | p in PathsOf(s[k..]) ensures p in PathsOf(s) {
      var j :| 0 <= j < |s| - k && s[k..][j].path == p;
      assert s[k + j] == s[k..][j];
    }
  }

  /** Sorting the collected cache files newest first gives a purge order. */
  lemma SortedIsPurgeOrder(fileInfo: seq<FileInfo>, files: Files, layout: Layout)
    requires DistinctPaths(fileInfo)
    requires PathsOf(fileInfo) == Candidates(files, layout.cacheDir, layout)
    requires forall i :: 0 <= i < |fileInfo| ==> fileInfo[i].path in files && fileInfo[i] == InfoOf(files, fileInfo[i].path)
    ensures IsPurgeOrder(SortNewestFirst(fileInfo), files, layout)
  {
    var sorted := SortNewestFirst(fileInfo);
    SortKeepsPaths(fileInfo);
    forall i | 0 <= i < |sorted| ensures sorted[i].path in files && sorted[i] == InfoOf(files, sorted[i].path) {
      assert sorted[i] in multiset(fileInfo);
    }
  }

  /** Purge deletes cache files only: every other entry is left as it was. */
  lemma PurgeSparesOtherEntries(files: Files, order: seq<FileInfo>, layout: Layout, max: nat)
    requires IsPurgeOrder(order, files, layout)
    ensures Deleted(order, max) <= Candidates(files, layout.cacheDir, layout)
    ensures forall p :: p in files && p !in Candidates(files, layout.cacheDir, layout) ==>
      p in files - Deleted(order, max) && (files - Deleted(order, max))[p] == files[p]
  {
    forall p | p in Deleted(order, max) ensures p in PathsOf(order) {
      var i :| 0 <= i < |order| && RunningTotal(order, i) > max && order[i].path == p;
    }
  }

  /**
   * After purge the cache's files total at most the limit: what is left is the
   * newest prefix of the visiting order that fits.
   */
  lemma PurgeBoundsDirSize(files: Files, order: seq<FileInfo>, layout: Layout, max: nat)
    requires IsPurgeOrder(order, files, layout)
    ensures KeepCount(order, max) <= |order|
    ensures Candidates(files - Deleted(order, max), layout.cacheDir, layout) == PathsOf(order[..KeepCount(order, max)])
    ensures DirSize(files - Deleted(order, max), layout.cacheDir, layout) == Total(order[..KeepCount(order, max)]) <= max
  {
    var dir := layout.cacheDir;
    KeptPrefix(order, max);
    DeletedIsSuffix(order, max);
    PurgeSparesOtherEntries(files, order, layout, max);
    var k := KeepCount(order, max);
    var gone := Deleted(order, max);
    var after := files - gone;
    PathsSplit(order, k);
    if !IsDirectory(files, dir) {
      assert order == [];
      assert order[..k] == [];
      assert PathsOf(order[..k]) == {};
    } else {
      assert dir !in gone;
      assert IsDirectory(after, dir);
      forall p ensures p in Candidates(after, dir, layout) <==> p in PathsOf(order[..k]) {
        if p in after {
          assert after[p] == files[p];
        }
      }
    }
    forall i | 0 <= i < |order[..k]| ensures order[..k][i].size == FileSize(after, order[..k][i].path) {
      var q := order[..k][i];
      assert q == order[i];
      assert q.path in PathsOf(order[..k]);
      assert q.path !in gone;
    }
    assert DistinctPaths(order[..k]) by {
      forall i, j | 0 <= i < j < k ensures order[..k][i].path != order[..k][j].path {
        assert order[..k][i] == order[i] && order[..k][j] == order[j];
      }
    }
    TotalSizeOfDistinct(after, order[..k]);
  }

  /** After clearCache no cache file is left, so dirFileSize reports 0. */
  lemma ClearCacheEmptiesDir(files: Files, layout: Layout)
    ensures Candidates(files - Candidates(files, layout.cacheDir, layout), layout.cacheDir, layout) == {}
    ensures DirSize(files - Candidates(files, layout.cacheDir, layout), layout.cacheDir, layout) == 0
  {
    var dir := layout.cacheDir;
    var after := files - Candidates(files, dir, layout);
    if IsDirectory(files, dir) {
      assert dir !in Candidates(files, dir, layout);
      forall p | p in after ensures !IsCachedFile(after, dir, layout, p) {
        assert after[p] == files[p];
      }
    } else {
      assert after == files;
    }
  }

  /** The entries with p's last-write time set to now; unchanged when p is missing. */
  function Touch(files: Files, p: Path, now: int): (r: Files)
    ensures r.Keys == files.Keys
    ensures p in files ==> r[p] == files[p].(mtime := now)
    ensures forall q :: q in r && q != p ==> r[q] == files[q]
  {
    if p in files then files[p := files[p].(mtime := now)] else files
  }

  /** Touching a file changes no kind and no size: the cache's files and their total stay the same. */
  lemma TouchKeepsCacheSize(files: Files, p: Path, now: int, dir: Path, layout: Layout)
    ensures Candidates(Touch(files, p, now), dir, layout) == Candidates(files, dir, layout)
    ensures DirSize(Touch(files, p, now), dir, layout) == DirSize(files, dir, layout)
  {
    var touched := Touch(files, p, now);
    assert IsDirectory(touched, dir) == IsDirectory(files, dir);
    assert forall q :: IsCachedFile(touched, dir, layout, q) == IsCachedFile(files, dir, layout, q);
    TotalSizeAgree(touched, files, Candidates(files, dir, layout));
  }

  /** The disk cache: its directory layout, its size limit and the disk it manages. */
  class DiskCache {
    const layout: Layout
    const maxSizeBytes: nat
    const disk: Disk

    /** Sets the prefix and creates the cache directory when nothing is there yet. */
    constructor (cacheDir: Path, delimiter: char, maxSizeBytes: nat, disk: Disk, now: int)
      modifies disk
      ensures layout == Layout(cacheDir, delimiter, CacheFilenamePrefix)
      ensures this.maxSizeBytes == maxSizeBytes && this.disk == disk
      ensures disk.files == if cacheDir in old(disk.files) then old(disk.files)
                            else old(disk.files)[cacheDir := Entry(Directory, [], now)]
    {
      layout := Layout(cacheDir, delimiter, CacheFilenamePrefix);
      this.maxSizeBytes := maxSizeBytes;
      this.disk := disk;
      new;
      if cacheDir !in disk.files {
        disk.files := disk.files[cacheDir := Entry(Directory, [], now)];
      }
    }

    /** Purge's first loop: one entry per cache file in the cache directory, in directory order. */
    method CollectCacheFiles() returns (fileInfo: seq<FileInfo>)
      ensures DistinctPaths(fileInfo)
      ensures PathsOf(fileInfo) == Candidates(disk.files, layout.cacheDir, layout)
      ensures forall i :: 0 <= i < |fileInfo| ==>
        fileInfo[i].path in disk.files && fileInfo[i] == InfoOf(disk.files, fileInfo[i].path)
    {
      var files := disk.files;
      var dir := layout.cacheDir;
      fileInfo := [];
      if dir in files && files[dir].kind == Directory {
        var todo := Listing(files, dir, layout.delimiter);
        ghost var listed := todo;
        while todo != {}
          invariant todo <= listed
          invariant DistinctPaths(fileInfo)
          invariant PathsOf(fileInfo) == set p | p in listed - todo && IsCachedFile(files, dir, layout, p)
          invariant forall i :: 0 <= i < |fileInfo| ==>
            fileInfo[i].path in files && fileInfo[i] == InfoOf(files, fileInfo[i].path)
          decreases todo
        {
          var p :| p in todo;
          if files[p].kind == Regular && Contains(p, layout.prefix) {
            AppendInfo(fileInfo, InfoOf(files, p));
            fileInfo := fileInfo + [InfoOf(files, p)];
          }
          todo := todo - {p};
        }
      }
    }

    /**
     * Collects the cache's files, visits them newest first with a running
     * size total, and deletes each one at which the total exceeds the limit.
     * `order` is the visiting order.
     */
    method Purge() returns (ghost order: seq<FileInfo>)
      modifies disk
      ensures IsPurgeOrder(order, old(disk.files), layout)
      ensures disk.files == old(disk.files) - Deleted(order, maxSizeBytes)
    {
      ghost var files0 := disk.files;
      var fileInfo := CollectCacheFiles();

      var sorted := SortNewestFirst(fileInfo);
      SortedIsPurgeOrder(fileInfo, files0, layout);
      order := sorted;

      DeleteOverLimit(sorted);
    }

    /** Purge's second loop: the running total over `sorted`, deleting where it exceeds the limit. */
    method DeleteOverLimit(sorted: seq<FileInfo>)
      modifies disk
      ensures disk.files == old(disk.files) - Deleted(sorted, maxSizeBytes)
    {
      var total: nat := 0;
      var i := 0;
      while i < |sorted|
        invariant 0 <= i <= |sorted|
        invariant total == Total(sorted[..i])
        invariant disk.files == old(disk.files) - DeletedBefore(sorted, i, maxSizeBytes)
      {
        RunningTotalStep(sorted, i);
        DeletedBeforeStep(sorted, i, maxSizeBytes);
        total := total + sorted[i].size;
        if total > maxSizeBytes {
          disk.files := disk.files - {sorted[i].path};
        }
        i := i + 1;
      }
      DeletedBeforeAll(sorted, maxSizeBytes);
    }

    /** Sets the last-write time of the file at p to now. */
    method UpdateFileAccessTime(p: Path, now: int)
      modifies disk
      ensures disk.files == Touch(old(disk.files), p, now)
    {
      if p in disk.files {
        disk.files := disk.files[p := disk.files[p].(mtime := now)];
      }
    }

    /** Deletes every cache file in the cache directory and nothing else. */
    method ClearCache()
      modifies disk
      ensures disk.files == old(disk.files) - Candidates(old(disk.files), layout.cacheDir, layout)
    {
      ghost var files0 := disk.files;
      var dir := layout.cacheDir;
      if dir in disk.files && disk.files[dir].kind == Directory {
        var todo := Listing(disk.files, dir, layout.delimiter);
        ghost var listed := todo;
        while todo != {}
          invariant todo <= listed
          invariant disk.files == files0 - set p | p in listed - todo && IsCachedFile(files0, dir, layout, p)
          decreases todo
        {
          var p :| p in todo;
          assert p in disk.files && disk.files[p] == files0[p];
          if disk.files[p].kind == Regular && Contains(p, layout.prefix) {
            disk.files := disk.files - {p};
          }
          todo := todo - {p};
        }
      }
    }

    /** Adds up the sizes of the cache's files in dir; 0 when dir is not a directory. */
    method DirFileSize(dir: Path) returns (total: nat)
      ensures total == DirSize(disk.files, dir, layout)
      ensures !IsDirectory(disk.files, dir) ==> total == 0
    {
      total := 0;
      if dir in disk.files && disk.files[dir].kind == Directory {
        var files := disk.files;
        var todo := Listing(files, dir, layout.delimiter);
        assert (set p | p in todo && IsCachedFile(files, dir, layout, p)) == Candidates(files, dir, layout);
        while todo != {}
          invariant todo <= Listing(files, dir, layout.delimiter)
          invariant total + TotalSize(files, set p | p in todo && IsCachedFile(files, dir, layout, p))
                    == DirSize(files, dir, layout)
          decreases todo
        {
          var p :| p in todo;
          ghost var before := set q | q in todo && IsCachedFile(files, dir, layout, q);
          if files[p].kind == Regular && Contains(p, layout.prefix) {
            TotalSizeRemove(files, before, p);
            assert (set q | q in todo - {p} && IsCachedFile(files, dir, layout, q)) == before - {p};
            total := total + |files[p].bytes|;
          } else {
            assert (set q | q in todo - {p} && IsCachedFile(files, dir, layout, q)) == before;
          }
          todo := todo - {p};
        }
        assert (set q | q in todo && IsCachedFile(files, dir, layout, q)) == {};
      }
    }
  }
}
